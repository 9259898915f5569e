/**
 * What each step of the Login process achieves, over every run and in terms of the tables themselves: how an attempt
 * ends, and what a submission, a cancellation, a retry and a restart leave behind.
 */
module LoginOutcomes {
  import opened Common
  import opened LoginStore
  import opened LoginService
  import opened LoginInvariants
  import opened LoginProofs
  import opened LoginTheorems

  // ---------------------------------------------------------------- reading the tables

  /** The task shows this attempt with this status, and so does the attempt's own row. */
  predicate Stands(db: Db, t: TaskId, a: AttemptId, status: TaskStatus) {
    && Shows(db, t, a) && db.tasks[t].status == status
    && a in db.attempts && db.attempts[a].task == t && db.attempts[a].status == status
  }

  /** The attempt ended with this status and its final stage says so. */
  predicate EndedAs(db: Db, t: TaskId, a: AttemptId, status: TaskStatus) {
    Stands(db, t, a, status) && db.tasks[t].stage == Ended(status) && db.attempts[a].stage == Ended(status)
  }

  /** Nothing but this task and this attempt differ. */
  predicate OthersKept(db: Db, db': Db, t: TaskId, a: AttemptId) {
    && db'.tasks - {t} == db.tasks - {t} && db'.attempts - {a} == db.attempts - {a}
  }

  /** What the row says besides how far the attempt got. */
  predicate SameTask(before: Task, after: Task) {
    && after.enterprise == before.enterprise && after.mapping == before.mapping && after.attempts == before.attempts
    && after.attempt == before.attempt
  }

  lemma InvAt(trace: seq<Login>, steps: seq<Step>, i: nat, id: TaskId)
    requires IsRun(trace, steps) && i < |steps|
    ensures Linked(trace[i].db) && LocalOk(trace[i], id)
    ensures Enabled(trace[i], steps[i]) && trace[i + 1] == Apply(trace[i], steps[i])
  {
    assert IsStep(trace[i], steps[i], trace[i + 1]);
    RunKeepsInv(trace[..i + 1], steps[..i]);
  }

  // ---------------------------------------------------------------- an attempt that ended stays as it ended

  /**
   * A task that shows a successful or cancelled attempt shows exactly that at every later moment, until it is deleted. A
   * failed attempt keeps its row, whether or not the task is retried with another.
   */
  lemma EndedStays(trace: seq<Login>, steps: seq<Step>, i: nat, t: TaskId, a: AttemptId, status: TaskStatus)
    requires IsRun(trace, steps) && i <= |steps| && Stands(trace[i].db, t, a, status) && !Active(status)
    ensures var db := trace[|steps|].db;
      t in db.tasks ==>
        && a in db.attempts && db.attempts[a] == trace[i].db.attempts[a]
        && (status != Failed ==> Stands(db, t, a, status))
        && (db.tasks[t].attempt == a ==> db.tasks[t].status == status)
  {
    EndedAttemptIsFinal(trace, steps, i, a);
    RunKeepsInv(trace, steps);
    var db := trace[|steps|].db;
    if t in db.tasks && db.tasks[t].attempt != a { assert IsSuperseded(db, a); }
  }

  lemma FinishEnds(db: Db, enterprise: EnterpriseId, t: TaskId, a: AttemptId, status: TaskStatus)
    requires Linked(db) && PointsAt(db.tasks, t, enterprise, a) && Active(db.tasks[t].status)
    ensures var db' := FinishAttempt(db, enterprise, t, a, status);
      EndedAs(db', t, a, status) && SameTask(db.tasks[t], db'.tasks[t]) && OthersKept(db, db', t, a)
  {
  }

  /** A confirmed token write ends the run's attempt as successful. */
  predicate Succeeds(s: Login, t: Login, id: TaskId) {
    id in s.runs && var run := s.runs[id];
      && id in s.db.tasks && EndedAs(t.db, id, run.attempt, Success) && SameTask(s.db.tasks[id], t.db.tasks[id])
      && OthersKept(s.db, t.db, id, run.attempt) && (run.identity, run.attempt) in t.past.confirmed && t.sent == s.sent
  }

  lemma TokenSavedSucceeds(s: Login, id: TaskId)
    requires Linked(s.db) && LocalOk(s, id) && RunIn(s, id, Saving)
    ensures Succeeds(s, TokenSaved(s, id), id)
  {
    FinishEnds(s.db, s.runs[id].enterprise, id, s.runs[id].attempt, Success);
  }

  /** A run whose token write Proxy confirmed succeeds, and the task shows that success for as long as it exists. */
  lemma ConfirmedRunSucceeds(trace: seq<Login>, steps: seq<Step>, i: nat, id: TaskId)
    requires IsRun(trace, steps) && i < |steps| && steps[i] == DoTokenSaved(id)
    ensures Succeeds(trace[i], trace[i + 1], id)
    ensures id in trace[|steps|].db.tasks ==> Stands(trace[|steps|].db, id, trace[i].runs[id].attempt, Success)
  {
    InvAt(trace, steps, i, id);
    TokenSavedSucceeds(trace[i], id);
    EndedStays(trace, steps, i + 1, id, trace[i].runs[id].attempt, Success);
  }

  /** The attempt of a run that was not aborted fails; an aborted one leaves the tables to its cancellation. */
  predicate FailsUnlessAborted(s: Login, t: Login, id: TaskId) {
    id in s.runs && id in s.db.tasks && t.sent == s.sent && var run := s.runs[id];
      if run.aborted then t.db == s.db
      else EndedAs(t.db, id, run.attempt, Failed) && SameTask(s.db.tasks[id], t.db.tasks[id]) && OthersKept(s.db, t.db, id, run.attempt)
  }

  lemma RunThrewFails(s: Login, id: TaskId)
    requires Linked(s.db) && LocalOk(s, id) && id in s.runs && Live(s.runs[id])
    ensures FailsUnlessAborted(s, RunThrew(s, id), id)
  {
    if !s.runs[id].aborted { FinishEnds(s.db, s.runs[id].enterprise, id, s.runs[id].attempt, Failed); }
  }

  /** A run that throws, before or after its token was sent, fails its attempt at once unless it was aborted. */
  lemma ThrownRunFails(trace: seq<Login>, steps: seq<Step>, i: nat, id: TaskId)
    requires IsRun(trace, steps) && i < |steps| && (steps[i] == DoLoginThrew(id) || steps[i] == DoSaveThrew(id))
    ensures FailsUnlessAborted(trace[i], trace[i + 1], id)
  {
    InvAt(trace, steps, i, id);
    RunThrewFails(trace[i], id);
  }

  /** The failure of a run that was not aborted is then reported to Proxy, and nothing else is sent or written. */
  lemma FailureIsReported(trace: seq<Login>, steps: seq<Step>, i: nat, id: TaskId)
    requires IsRun(trace, steps) && i < |steps| && steps[i] == DoCaught(id)
    ensures id in trace[i].runs && var run, s, t := trace[i].runs[id], trace[i], trace[i + 1];
      && t.db == s.db
      && t.sent == if run.aborted then s.sent else s.sent + {FailRequest(run.enterprise, run.identity, run.attempt)}
  {
    InvAt(trace, steps, i, id);
  }

  /** The run sends the token under its own account and attempt, and its task goes on running. */
  predicate SendsToken(s: Login, t: Login, id: TaskId, token: Token) {
    id in s.runs && id in s.db.tasks && var run, task := s.runs[id], s.db.tasks[id];
      && task.mapping.identity == run.identity && task.enterprise == run.enterprise
      && t.sent == s.sent + {SaveRequest(run.enterprise, run.identity, run.attempt, token)}
      && Stands(t.db, id, run.attempt, Running) && t.db.tasks[id].stage == t.db.attempts[run.attempt].stage == Reported("saving-token")
      && SameTask(task, t.db.tasks[id]) && OthersKept(s.db, t.db, id, run.attempt)
  }

  lemma TokenObtainedSends(s: Login, id: TaskId, token: Token)
    requires Linked(s.db) && LocalOk(s, id) && RunIn(s, id, Authorizing) && !s.runs[id].aborted
    ensures SendsToken(s, TokenObtained(s, id, token), id, token)
  {
    StageStands(s.db, s.runs[id].enterprise, id, s.runs[id].attempt, Reported("saving-token"));
  }

  lemma StageStands(db: Db, enterprise: EnterpriseId, t: TaskId, a: AttemptId, stage: Stage)
    requires Linked(db) && PointsAt(db.tasks, t, enterprise, a) && Active(db.tasks[t].status)
    ensures var db' := SetStage(db, enterprise, t, a, stage);
      && Stands(db', t, a, db.tasks[t].status) && db'.tasks[t].stage == db'.attempts[a].stage == stage
      && SameTask(db.tasks[t], db'.tasks[t]) && OthersKept(db, db', t, a)
  {
  }

  /** A token that a run obtained is sent to Proxy. */
  lemma ObtainedTokenIsSent(trace: seq<Login>, steps: seq<Step>, i: nat, id: TaskId, token: Token)
    requires IsRun(trace, steps) && i < |steps| && steps[i] == DoTokenObtained(id, token)
    ensures SendsToken(trace[i], trace[i + 1], id, token)
  {
    InvAt(trace, steps, i, id);
    TokenObtainedSends(trace[i], id, token);
  }

  /** The stage a live run reports is the one its task and its attempt show; nothing else changes. */
  lemma StageIsShown(trace: seq<Login>, steps: seq<Step>, i: nat, id: TaskId, stage: Stage)
    requires IsRun(trace, steps) && i < |steps| && steps[i] == DoStage(id, stage)
    ensures id in trace[i].runs && id in trace[i].db.tasks && var s, t, a := trace[i], trace[i + 1], trace[i].runs[id].attempt;
      && Stands(t.db, id, a, s.db.tasks[id].status) && t.db.tasks[id].stage == t.db.attempts[a].stage == stage
      && SameTask(s.db.tasks[id], t.db.tasks[id]) && OthersKept(s.db, t.db, id, a) && t.sent == s.sent
  {
    InvAt(trace, steps, i, id);
    var run := trace[i].runs[id];
    StageStands(trace[i].db, run.enterprise, id, run.attempt, stage);
  }

  lemma {:induction false} DrainLeavesUnqueued(s: Login, limit: nat, u: TaskId)
    requires !InQueue(s.pending, u)
    ensures var t := Drain(s, limit); (u in t.runs <==> u in s.runs) && (u in s.runs ==> t.runs[u] == s.runs[u])
    decreases |s.pending|
  {
    if s.accepting && |s.runs| < limit && s.pending != [] {
      var p := s.pending[0];
      var rest := s.(pending := s.pending[1..]);
      DrainLeavesUnqueued(if IsRunnable(rest, p) then Start(rest, p) else rest, limit, u);
    }
  }

  /** A run that settled gives its slot up, and the runs of other tasks keep theirs. */
  lemma SettledSlotIsFreed(trace: seq<Login>, steps: seq<Step>, i: nat, id: TaskId, limit: nat, u: TaskId)
    requires IsRun(trace, steps) && i < |steps| && steps[i] == DoSettled(id, limit)
    ensures id !in trace[i + 1].runs
    ensures u in trace[i].runs && u != id ==> u in trace[i + 1].runs && trace[i + 1].runs[u] == trace[i].runs[u]
  {
    assert IsStep(trace[i], steps[i], trace[i + 1]);
    RunIsNotQueued(trace, steps, i, id);
    DrainLeavesUnqueued(trace[i].(runs := trace[i].runs - {id}), limit, id);
    if u in trace[i].runs && u != id {
      RunIsNotQueued(trace, steps, i, u);
      DrainLeavesUnqueued(trace[i].(runs := trace[i].runs - {id}), limit, u);
    }
  }

  lemma RunIsNotQueued(trace: seq<Login>, steps: seq<Step>, i: nat, u: TaskId)
    requires IsRun(trace, steps) && i <= |steps| && u in trace[i].runs
    ensures !InQueue(trace[i].pending, u)
  {
    RunKeepsInv(trace[..i + 1], steps[..i]);
    var s := trace[i];
    if InQueue(s.pending, u) { QueuedIsPending(s.db.tasks, s.runs, s.pending, u); }
  }

  // ---------------------------------------------------------------- cancellation

  predicate IsUnfinished(db: Db, enterprise: EnterpriseId, id: TaskId) {
    && id in db.tasks && db.tasks[id].enterprise == enterprise
    && (db.tasks[id].status == Pending || db.tasks[id].status == Running || db.tasks[id].status == Cancelling)
  }

  /** The task and its attempt are marked, its place in the queue is given up, its run is aborted and its closing is open. */
  predicate OpensCancellation(s: Login, t: Login, id: TaskId) {
    id in s.db.tasks && var a := s.db.tasks[id].attempt;
      && Stands(t.db, id, a, Cancelling) && SameTask(s.db.tasks[id], t.db.tasks[id]) && OthersKept(s.db, t.db, id, a)
      && (id, a) in t.cancelled && id in t.cancellers && t.cancellers[id].attempt == a && t.sent == s.sent
      && (id in s.runs ==> id in t.runs && t.runs[id] == s.runs[id].(aborted := true)) && t.runs - {id} == s.runs - {id}
  }

  lemma CancelOpens(s: Login, enterprise: EnterpriseId, id: TaskId)
    requires Linked(s.db) && LocalOk(s, id) && IsUnfinished(s.db, enterprise, id)
    ensures OpensCancellation(s, Cancel(s, enterprise, id), id)
  {
    CancelMarks(s.db, enterprise, id);
  }

  lemma CancelMarks(db: Db, enterprise: EnterpriseId, id: TaskId)
    requires Linked(db) && IsUnfinished(db, enterprise, id)
    ensures var db', a := RequestCancellation(db, enterprise, id), db.tasks[id].attempt;
      Stands(db', id, a, Cancelling) && SameTask(db.tasks[id], db'.tasks[id]) && OthersKept(db, db', id, a)
  {
  }

  lemma {:induction false} OthersStayQueued(pending: seq<Payload>, id: TaskId, other: TaskId)
    requires other != id
    ensures InQueue(RemoveTask(pending, id), other) <==> InQueue(pending, other)
  {
    if pending != [] && pending[0].task != id {
      OthersStayQueued(pending[1..], id, other);
      assert ([pending[0]] + RemoveTask(pending[1..], id))[1..] == RemoveTask(pending[1..], id);
    }
  }

  /**
   * Cancelling an unfinished task opens its cancellation and takes it, and no other, out of the queue; cancelling any other
   * changes nothing.
   */
  lemma CancellationIsOpened(trace: seq<Login>, steps: seq<Step>, i: nat, enterprise: EnterpriseId, id: TaskId, other: TaskId)
    requires IsRun(trace, steps) && i < |steps| && steps[i] == DoCancel(enterprise, id)
    ensures var s, t := trace[i], trace[i + 1];
      if IsUnfinished(s.db, enterprise, id)
      then OpensCancellation(s, t, id) && !InQueue(t.pending, id) && (other != id ==> (InQueue(t.pending, other) <==> InQueue(s.pending, other)))
      else t == s
  {
    InvAt(trace, steps, i, id);
    if IsUnfinished(trace[i].db, enterprise, id) {
      CancelOpens(trace[i], enterprise, id);
      NotPendingIsNotQueued(trace, steps, i + 1, id);
      if other != id { OthersStayQueued(trace[i].pending, id, other); }
    }
  }

  lemma NotPendingIsNotQueued(trace: seq<Login>, steps: seq<Step>, i: nat, id: TaskId)
    requires IsRun(trace, steps) && i <= |steps| && id in trace[i].db.tasks && trace[i].db.tasks[id].status != Pending
    ensures !InQueue(trace[i].pending, id)
  {
    RunKeepsInv(trace[..i + 1], steps[..i]);
    var s := trace[i];
    if InQueue(s.pending, id) { QueuedIsPending(s.db.tasks, s.runs, s.pending, id); }
  }

  /** The task is cancelled for good and Proxy is told. */
  predicate ClosesCancellation(s: Login, t: Login, id: TaskId) {
    id in s.db.tasks && var task := s.db.tasks[id];
      && EndedAs(t.db, id, task.attempt, Cancelled) && SameTask(task, t.db.tasks[id]) && OthersKept(s.db, t.db, id, task.attempt)
      && t.sent == s.sent + {FailRequest(task.enterprise, task.mapping.identity, task.attempt)}
  }

  lemma FinishCloses(s: Login, id: TaskId)
    requires Linked(s.db) && LocalOk(s, id) && id in s.cancellers
    ensures var t := FinishCancellation(s, id);
      if id in s.db.tasks && s.db.tasks[id].status == Cancelling then ClosesCancellation(s, t, id) else t.db == s.db && t.sent == s.sent
  {
    if id in s.db.tasks && s.db.tasks[id].status == Cancelling {
      FinishEnds(s.db, s.cancellers[id].enterprise, id, s.cancellers[id].attempt, Cancelled);
    }
  }

  /** The closing of a cancellation ends a task that is still cancelling as cancelled, for good, and reports it to Proxy. */
  lemma CancellationIsClosed(trace: seq<Login>, steps: seq<Step>, i: nat, id: TaskId)
    requires IsRun(trace, steps) && i < |steps| && steps[i] == DoFinishCancellation(id)
    ensures var s, t := trace[i], trace[i + 1];
      if id in s.db.tasks && s.db.tasks[id].status == Cancelling
      then ClosesCancellation(s, t, id)
        && (id in trace[|steps|].db.tasks ==> Stands(trace[|steps|].db, id, s.db.tasks[id].attempt, Cancelled))
      else t.db == s.db && t.sent == s.sent
  {
    InvAt(trace, steps, i, id);
    var s := trace[i];
    FinishCloses(s, id);
    if id in s.db.tasks && s.db.tasks[id].status == Cancelling { EndedStays(trace, steps, i + 1, id, s.db.tasks[id].attempt, Cancelled); }
  }

  // ---------------------------------------------------------------- submissions and retries

  lemma {:induction false} DrainOnlyStarts(s: Login, limit: nat, t: TaskId)
    requires t in s.db.tasks
    ensures t in Drain(s, limit).db.tasks && var was, now := s.db.tasks[t], Drain(s, limit).db.tasks[t];
      now == was || (was.status == Pending && now == was.(status := Running, attempts := was.attempts + 1))
    ensures Drain(s, limit).sent == s.sent
    decreases |s.pending|
  {
    if s.accepting && |s.runs| < limit && s.pending != [] {
      var p := s.pending[0];
      var rest := s.(pending := s.pending[1..]);
      DrainOnlyStarts(if IsRunnable(rest, p) then Start(rest, p) else rest, limit, t);
    }
  }

  /** The attempt waits in the queue, or its run has started. */
  predicate QueuedOrStarted(s: Login, t: TaskId, a: AttemptId) {
    || (Stands(s.db, t, a, Pending) && InQueue(s.pending, t))
    || (Stands(s.db, t, a, Running) && t in s.runs && s.runs[t].attempt == a)
  }

  lemma PlacedIsOwned(s: Login, t: TaskId, a: AttemptId)
    requires LoginInv(s) && Shows(s.db, t, a)
    requires (s.db.tasks[t].status == Pending && s.db.tasks[t].stage == Queued) || s.db.tasks[t].status == Running
    ensures QueuedOrStarted(s, t, a)
  {
    assert LocalOk(s, t);
  }

  /** The attempt is unknown and the account has no unfinished task. */
  ghost predicate IsNew(db: Db, identity: Identity, a: AttemptId) {
    && a !in db.attempts
    && forall t | t in db.tasks && db.tasks[t].mapping.identity == identity ::
      db.tasks[t].status == Success || db.tasks[t].status == Failed || db.tasks[t].status == Cancelled
  }

  lemma IsNewIff(db: Db, identity: Identity, a: AttemptId)
    ensures IsNew(db, identity, a) <==> a !in db.attempts && !HasActiveTask(db.tasks, identity)
  {
  }

  lemma SubmitCreates(s: Login, enterprise: EnterpriseId, mapping: Mapping, a: AttemptId, id: TaskId, limit: nat)
    requires !IsBusy(s, id)
    ensures var t := Submit(s, enterprise, mapping, a, id, limit);
      && id in t.db.tasks
      && (t.db.tasks[id] == Task(enterprise, mapping, a, Pending, 0, Queued, None)
          || t.db.tasks[id] == Task(enterprise, mapping, a, Running, 1, Queued, None))
  {
    DrainOnlyStarts(Push(Register(s, enterprise, mapping, a, id), Payload(enterprise, id, a, mapping.identity)), limit, id);
  }

  lemma EnqueueIgnores(s: Login, enterprise: EnterpriseId, mapping: Mapping, a: AttemptId, id: TaskId, limit: nat)
    requires a in s.db.attempts || HasActiveTask(s.db.tasks, mapping.identity)
    requires a in s.db.attempts ==>
      && s.db.attempts[a].task in s.db.tasks
      && (s.db.attempts[a].status == Pending && s.db.attempts[a].stage == Queued ==> IsBusy(s, s.db.attempts[a].task))
    ensures Enqueue(s, enterprise, mapping, a, id, limit) == s
  {
  }

  lemma KnownIsBusy(s: Login, a: AttemptId)
    requires LoginInv(s) && a in s.db.attempts
    ensures s.db.attempts[a].task in s.db.tasks
    ensures s.db.attempts[a].status == Pending && s.db.attempts[a].stage == Queued ==> IsBusy(s, s.db.attempts[a].task)
  {
    if s.db.attempts[a].status == Pending && s.db.attempts[a].stage == Queued { ResubmissionIsBusy(s, a); }
  }

  /**
   * A submission is taken exactly when its attempt is unknown and its account has no unfinished task: then the new task is
   * queued or already started, under the submitted mapping. Any other submission changes nothing.
   */
  lemma SubmissionIsTaken(trace: seq<Login>, steps: seq<Step>, i: nat)
    requires IsRun(trace, steps) && i < |steps| && steps[i].DoEnqueue?
    ensures var s, t, step := trace[i], trace[i + 1], steps[i];
      if IsNew(s.db, step.mapping.identity, step.attempt) then
        && QueuedOrStarted(t, step.id, step.attempt) && t.past.enqueued == s.past.enqueued + [step.attempt]
        && t.db.tasks[step.id].mapping == step.mapping && t.db.tasks[step.id].enterprise == step.enterprise
        && t.db.tasks[step.id].attempts == if t.db.tasks[step.id].status == Pending then 0 else 1
      else t == s
  {
    var s, step := trace[i], steps[i];
    InvAround(trace, steps, i);
    IsNewIff(s.db, step.mapping.identity, step.attempt);
    if IsNew(s.db, step.mapping.identity, step.attempt) {
      FreshIsIdle(s, step.id);
      EnqueueQueues(s, step.enterprise, step.mapping, step.attempt, step.id, step.limit);
      SubmitCreates(s, step.enterprise, step.mapping, step.attempt, step.id, step.limit);
      PlacedIsOwned(trace[i + 1], step.id, step.attempt);
    } else {
      if step.attempt in s.db.attempts { KnownIsBusy(s, step.attempt); }
      EnqueueIgnores(s, step.enterprise, step.mapping, step.attempt, step.id, step.limit);
    }
  }

  lemma InvAround(trace: seq<Login>, steps: seq<Step>, i: nat)
    requires IsRun(trace, steps) && i < |steps|
    ensures LoginInv(trace[i]) && LoginInv(trace[i + 1])
    ensures Enabled(trace[i], steps[i]) && trace[i + 1] == Apply(trace[i], steps[i])
  {
    assert IsStep(trace[i], steps[i], trace[i + 1]);
    RunKeepsInv(trace[..i + 1], steps[..i]);
    RunKeepsInv(trace[..i + 2], steps[..i + 1]);
  }

  /** The task failed with the attempt the retry saw, is not being deleted, and its account has no unfinished task. */
  ghost predicate IsRetryable(db: Db, q: Inquiry) {
    && PointsAt(db.tasks, q.task, q.enterprise, q.snapshot.attempt)
    && db.tasks[q.task].status == Failed && db.tasks[q.task].stage != Deleting
    && forall t | t in db.tasks && db.tasks[t].mapping.identity == q.snapshot.mapping.identity ::
      db.tasks[t].status == Success || db.tasks[t].status == Failed || db.tasks[t].status == Cancelled
  }

  /** The task starts over with the next attempt, and Proxy is asked to prepare it in place of the one that failed. */
  ghost predicate StartsOver(s: Login, t: Login, q: Inquiry, a: AttemptId) {
    && Stands(t.db, q.task, a, Pending) && t.db.tasks[q.task].stage == t.db.attempts[a].stage == Preparing
    && t.db.attempts[a].number == CurrentNumber(s.db, q.task) + 1
    && t.db.tasks - {q.task} == s.db.tasks - {q.task} && t.db.attempts - {a} == s.db.attempts
    && IsPreparing(t, q.task, a) && t.sent == s.sent + {PrepareRequest(q.enterprise, a, q.snapshot.attempt, q.snapshot.mapping)}
  }

  lemma ReservedStands(db: Db, id: TaskId, a: AttemptId)
    requires a !in db.attempts && id in db.tasks
    ensures var db' := Reserve(db, id, a);
      && Stands(db', id, a, Pending) && db'.tasks[id].stage == db'.attempts[a].stage == Preparing
      && db'.tasks - {id} == db.tasks - {id} && db'.attempts - {a} == db.attempts
  {
  }

  lemma ReservedNumber(db: Db, id: TaskId, a: AttemptId)
    requires Linked(db) && Numbered(db) && id in db.tasks
    ensures Reserve(db, id, a).attempts[a].number == CurrentNumber(db, id) + 1
  {
    CurrentIsHighest(db, id);
  }

  lemma RetryableIff(db: Db, q: Inquiry)
    ensures IsRetryable(db, q) <==> CanReserve(db, q.enterprise, q.task, q.snapshot.mapping.identity, q.snapshot.attempt)
  {
  }

  lemma ReserveStartsOver(s: Login, q: Inquiry, a: AttemptId)
    requires Linked(s.db) && Numbered(s.db) && a !in s.db.attempts && IsRetryable(s.db, q)
    ensures StartsOver(s, ReserveRetry(s, q, a), q, a)
  {
    RetryableIff(s.db, q);
    ReservedStands(s.db, q.task, a);
    ReservedNumber(s.db, q.task, a);
    var t := ReserveRetry(s, q, a);
    assert t.db == Reserve(s.db, q.task, a);
  }

  /** A retry reserves its attempt exactly when its task can still be retried; otherwise it changes nothing. */
  lemma RetryIsReserved(trace: seq<Login>, steps: seq<Step>, i: nat, q: Inquiry, a: AttemptId)
    requires IsRun(trace, steps) && i < |steps| && steps[i] == DoReserve(q, a)
    ensures if IsRetryable(trace[i].db, q) then StartsOver(trace[i], trace[i + 1], q, a) else trace[i + 1] == trace[i]
  {
    InvAround(trace, steps, i);
    RetryableIff(trace[i].db, q);
    if IsRetryable(trace[i].db, q) { ReserveStartsOver(trace[i], q, a); }
  }

  predicate IsWanted(s: Login, p: Preparation, a: AttemptId) {
    PointsAt(s.db.tasks, p.task, p.enterprise, a) && s.db.tasks[p.task].status == Pending
  }

  /** What becomes of a retry when Proxy's answer arrives. */
  ghost predicate RetryEnds(s: Login, t: Login, p: Preparation, a: AttemptId, ok: bool) {
    var told := s.sent + {FailRequest(p.enterprise, p.identity, a)};
    var cancelling := Has(s.db, p.enterprise, p.task) && s.db.tasks[p.task].status == Cancelling;
    var cancelled := Has(s.db, p.enterprise, p.task) && s.db.tasks[p.task].status == Cancelled;
    if IsWanted(s, p, a) then
      if !ok then EndedAs(t.db, p.task, a, Failed) && OthersKept(s.db, t.db, p.task, a) && t.sent == told
      else if IsBusy(s, p.task) then t.db == s.db && t.sent == s.sent && IsStranded(t, p.task)
      else QueuedOrStarted(t, p.task, a) && t.past.enqueued == s.past.enqueued + [a] && t.sent == s.sent
    else
      && (cancelling ==> OpensCancellation(s, t, p.task))
      && (!cancelling ==> t.db == s.db && t.sent == if !ok && cancelled then s.sent else told)
  }

  lemma RefusedPreparationEnds(s: Login, a: AttemptId, limit: nat)
    requires Linked(s.db) && a in s.preparing && IsWanted(s, s.preparing[a], a)
    ensures RetryEnds(s, PrepareReturned(s, a, false, limit), s.preparing[a], a, false)
  {
    FinishEnds(s.db, s.preparing[a].enterprise, s.preparing[a].task, a, Failed);
  }

  lemma PreparationIsQuiet(s: Login, a: AttemptId)
    requires a in s.preparing && LocalOk(s, s.preparing[a].task) && s.preparing[a].task in s.db.tasks
    requires s.db.tasks[s.preparing[a].task].status == Cancelling
    ensures LocalOk(s.(preparing := s.preparing - {a}), s.preparing[a].task)
  {
  }

  lemma CancelledPreparationEnds(s: Login, a: AttemptId, ok: bool, limit: nat)
    requires Linked(s.db) && a in s.preparing && LocalOk(s, s.preparing[a].task)
    requires Has(s.db, s.preparing[a].enterprise, s.preparing[a].task) && s.db.tasks[s.preparing[a].task].status == Cancelling
    ensures RetryEnds(s, PrepareReturned(s, a, ok, limit), s.preparing[a], a, ok)
  {
    PreparationIsQuiet(s, a);
    CancelOpens(s.(preparing := s.preparing - {a}), s.preparing[a].enterprise, s.preparing[a].task);
  }

  lemma UnwantedPreparationEnds(s: Login, a: AttemptId, ok: bool, limit: nat)
    requires a in s.preparing && LocalOk(s, s.preparing[a].task) && !IsWanted(s, s.preparing[a], a)
    requires !(Has(s.db, s.preparing[a].enterprise, s.preparing[a].task) && s.db.tasks[s.preparing[a].task].status == Cancelling)
    ensures RetryEnds(s, PrepareReturned(s, a, ok, limit), s.preparing[a], a, ok)
  {
  }

  lemma WantedPreparationIsPlaced(s: Login, a: AttemptId, limit: nat)
    requires a in s.preparing && IsWanted(s, s.preparing[a], a) && !IsBusy(s, s.preparing[a].task)
    ensures var t, id := PrepareReturned(s, a, true, limit), s.preparing[a].task;
      && Shows(t.db, id, a) && ((t.db.tasks[id].status == Pending && t.db.tasks[id].stage == Queued) || t.db.tasks[id].status == Running)
      && t.sent == s.sent
  {
    var p := s.preparing[a];
    var staged := s.(preparing := s.preparing - {a}, db := SetStage(s.db, p.enterprise, p.task, a, Queued));
    DrainOnlyStarts(Push(staged, Payload(p.enterprise, p.task, a, p.identity)), limit, p.task);
  }

  /**
   * Proxy's answer to a retry: a wanted one that was prepared is queued or started, unless an earlier run of the task holds
   * its slot; one that was refused fails and Proxy is told; one that is no longer wanted is released at Proxy.
   */
  lemma RetryIsAnswered(trace: seq<Login>, steps: seq<Step>, i: nat, a: AttemptId, ok: bool, limit: nat)
    requires IsRun(trace, steps) && i < |steps| && steps[i] == DoPrepareReturned(a, ok, limit)
    ensures a in trace[i].preparing && RetryEnds(trace[i], trace[i + 1], trace[i].preparing[a], a, ok)
  {
    InvAround(trace, steps, i);
    if ok && IsWanted(trace[i], trace[i].preparing[a], a) && IsBusy(trace[i], trace[i].preparing[a].task) { BusyIsStranded(trace, steps, i, a, limit); }
    PreparationEnds(trace[i], trace[i + 1], a, ok, limit);
  }

  lemma BusyIsStranded(trace: seq<Login>, steps: seq<Step>, i: nat, a: AttemptId, limit: nat)
    requires IsRun(trace, steps) && i < |steps| && steps[i] == DoPrepareReturned(a, true, limit) && a in trace[i].preparing
    requires IsWanted(trace[i], trace[i].preparing[a], a) && IsBusy(trace[i], trace[i].preparing[a].task)
    ensures IsStranded(trace[i + 1], trace[i].preparing[a].task)
  {
    assert IsStep(trace[i], steps[i], trace[i + 1]);
    RetryIsStrandedIff(trace[..i + 1], steps[..i], a, limit);
  }

  lemma PreparationEnds(s: Login, t: Login, a: AttemptId, ok: bool, limit: nat)
    requires LoginInv(s) && LoginInv(t) && a in s.preparing && t == PrepareReturned(s, a, ok, limit)
    requires ok && IsWanted(s, s.preparing[a], a) && IsBusy(s, s.preparing[a].task) ==> IsStranded(t, s.preparing[a].task)
    ensures RetryEnds(s, t, s.preparing[a], a, ok)
  {
    var p := s.preparing[a];
    assert LocalOk(s, p.task);
    if Has(s.db, p.enterprise, p.task) && s.db.tasks[p.task].status == Cancelling { CancelledPreparationEnds(s, a, ok, limit); }
    else if !IsWanted(s, p, a) { UnwantedPreparationEnds(s, a, ok, limit); }
    else if !ok { RefusedPreparationEnds(s, a, limit); }
    else if IsBusy(s, p.task) { BusyPreparationEnds(s, a, limit); }
    else {
      PlacedPreparationIsOwned(s, t, a, limit);
      PlacedPreparationEnds(s, t, a, limit);
    }
  }

  lemma BusyPreparationEnds(s: Login, a: AttemptId, limit: nat)
    requires a in s.preparing && IsWanted(s, s.preparing[a], a) && IsBusy(s, s.preparing[a].task)
    requires IsStranded(PrepareReturned(s, a, true, limit), s.preparing[a].task)
    ensures RetryEnds(s, PrepareReturned(s, a, true, limit), s.preparing[a], a, true)
  {
  }

  lemma PlacedPreparationEnds(s: Login, t: Login, a: AttemptId, limit: nat)
    requires a in s.preparing && IsWanted(s, s.preparing[a], a) && !IsBusy(s, s.preparing[a].task)
    requires t == PrepareReturned(s, a, true, limit) && QueuedOrStarted(t, s.preparing[a].task, a)
    ensures RetryEnds(s, t, s.preparing[a], a, true)
  {
    WantedPreparationIsPlaced(s, a, limit);
    PrepareReturnedQueues(s, a, true, limit);
  }

  lemma PlacedPreparationIsOwned(s: Login, t: Login, a: AttemptId, limit: nat)
    requires a in s.preparing && IsWanted(s, s.preparing[a], a) && !IsBusy(s, s.preparing[a].task)
    requires t == PrepareReturned(s, a, true, limit) && LoginInv(t)
    ensures QueuedOrStarted(t, s.preparing[a].task, a)
  {
    WantedPreparationIsPlaced(s, a, limit);
    PlacedIsOwned(t, s.preparing[a].task, a);
  }

  // ---------------------------------------------------------------- deletion and restart

  /**
   * A finished task is deleted with all of its attempts and nothing else; the deletion of any other task changes nothing.
   */
  lemma FinishedTaskIsDeleted(trace: seq<Login>, steps: seq<Step>, i: nat, enterprise: EnterpriseId, id: TaskId, a: AttemptId)
    requires IsRun(trace, steps) && i < |steps| && steps[i] == DoDelete(enterprise, id)
    ensures var s, t := trace[i], trace[i + 1];
      if Has(s.db, enterprise, id) && !IsUnfinished(s.db, enterprise, id)
      then t.db.tasks == s.db.tasks - {id}
        && (a in t.db.attempts <==> a in s.db.attempts && s.db.attempts[a].task != id)
        && (a in t.db.attempts ==> t.db.attempts[a] == s.db.attempts[a])
      else t == s
  {
    InvAt(trace, steps, i, id);
  }

  /** A finished task is claimed for deletion once, and remembers the stage it showed. */
  lemma DeletionIsClaimed(trace: seq<Login>, steps: seq<Step>, i: nat, enterprise: EnterpriseId, id: TaskId)
    requires IsRun(trace, steps) && i < |steps| && steps[i] == DoClaimDeletion(enterprise, id)
    ensures var s, t := trace[i], trace[i + 1];
      if Has(s.db, enterprise, id) && !IsUnfinished(s.db, enterprise, id) && s.db.tasks[id].stage != Deleting then
        && id in t.db.tasks && t.db.tasks[id].stage == Deleting && t.db.tasks[id].priorStage == Some(s.db.tasks[id].stage)
        && SameTask(s.db.tasks[id], t.db.tasks[id]) && t.db.tasks[id].status == s.db.tasks[id].status
        && t.db.tasks - {id} == s.db.tasks - {id} && t.db.attempts == s.db.attempts
      else t == s
  {
    InvAt(trace, steps, i, id);
  }

  /** A claim that is given up is no longer one: the task shows the stage it showed before, or how it ended. */
  lemma ClaimIsGivenUp(trace: seq<Login>, steps: seq<Step>, i: nat, enterprise: EnterpriseId, id: TaskId)
    requires IsRun(trace, steps) && i < |steps| && steps[i] == DoReleaseDeletion(enterprise, id)
    ensures var s, t := trace[i], trace[i + 1];
      if Has(s.db, enterprise, id) && !IsUnfinished(s.db, enterprise, id) && s.db.tasks[id].stage == Deleting then
        var task := s.db.tasks[id];
        && id in t.db.tasks && SameTask(task, t.db.tasks[id]) && t.db.tasks[id].status == task.status
        && t.db.tasks[id].stage == (if task.priorStage.Some? then task.priorStage.value else Ended(task.status))
        && t.db.tasks - {id} == s.db.tasks - {id} && t.db.attempts == s.db.attempts
      else t.db == s.db
  {
    InvAt(trace, steps, i, id);
    if id in trace[i].db.tasks { assert trace[i].db.tasks[id := trace[i].db.tasks[id]] == trace[i].db.tasks; }
  }

  /** What a submission is answered. */
  lemma SubmissionIsAnswered(db: Db, enterprise: EnterpriseId, mapping: Mapping, a: AttemptId, id: TaskId)
    requires Linked(db)
    ensures var verdict := CreateVerdict(db, enterprise, mapping, a, id);
      if IsNew(db, mapping.identity, a) then verdict == Created(id)
      else if a !in db.attempts then verdict == TaskAlreadyActive
      else
        var owner := db.attempts[a].task;
        owner in db.tasks
        && verdict == if db.tasks[owner].enterprise == enterprise && db.tasks[owner].mapping == mapping then Existing(owner) else AttemptConflict
  {
    IsNewIff(db, mapping.identity, a);
  }

  /** How a restart leaves a task: an interrupted one failed, or cancelled when that had been asked for. */
  function AfterRestart(status: TaskStatus): TaskStatus {
    match status
    case Pending => Failed
    case Running => Failed
    case Cancelling => Cancelled
    case ended => ended
  }

  ghost predicate IsRestarted(s: Login, s': Login, t: TaskId)
    requires t in s.db.tasks
  {
    var task := s.db.tasks[t];
    && Stands(s'.db, t, task.attempt, AfterRestart(task.status)) && SameTask(task, s'.db.tasks[t])
    && if IsUnfinished(s.db, task.enterprise, t) then
         && EndedAs(s'.db, t, task.attempt, AfterRestart(task.status))
         && FailRequest(task.enterprise, task.mapping.identity, task.attempt) in s'.sent
       else
         && task.attempt in s.db.attempts && s'.db.attempts[task.attempt] == s.db.attempts[task.attempt]
         && if task.stage != Deleting then s'.db.tasks[t] == task
            else s'.db.tasks[t].stage == if task.priorStage.Some? then task.priorStage.value else Ended(task.status)
  }

  lemma RestartEnds(s: Login, t: TaskId)
    requires Linked(s.db) && t in s.db.tasks
    ensures IsRestarted(s, Restarted(s), t)
  {
    assert Restarted(s).db.tasks[t] == ClosedTask(s.db.tasks[t]);
    assert Restarted(s).db.attempts[s.db.tasks[t].attempt] == ClosedAttempt(s.db, s.db.tasks[t].attempt);
  }

  /**
   * A restart ends every unfinished task, tells Proxy of each and of nothing else, gives claims of deletion up and leaves
   * all other tasks as they were.
   */
  lemma RestartEndsTasks(trace: seq<Login>, steps: seq<Step>, i: nat, t: TaskId)
    requires IsRun(trace, steps) && i < |steps| && steps[i] == DoRestart
    ensures var s, s' := trace[i], trace[i + 1];
      && s'.pending == [] && s'.runs == map[] && s'.accepting && s'.db.tasks.Keys == s.db.tasks.Keys
      && (t in s.db.tasks ==> IsRestarted(s, s', t))
      && (forall r | r in s'.sent && r !in s.sent :: r.FailRequest? && exists u | u in s.db.tasks ::
            s.db.tasks[u].attempt == r.attempt && IsUnfinished(s.db, r.enterprise, u))
  {
    InvAt(trace, steps, i, t);
    if t in trace[i].db.tasks { RestartEnds(trace[i], t); }
  }
}
