/** What every step of the Login process keeps, stated per table and proved step by step. */
module LoginInvariants {
  import opened Common
  import opened LoginStore
  import opened LoginService

  type Tasks = map<TaskId, Task>

  /** The run has not closed its task yet. */
  predicate Live(run: Run) {
    run.phase == Authorizing || run.phase == Saving
  }

  predicate PointsAt(tasks: Tasks, t: TaskId, enterprise: EnterpriseId, attempt: AttemptId) {
    t in tasks && tasks[t].enterprise == enterprise && tasks[t].attempt == attempt
  }

  /** A live run owns a running task, or a cancelling one once it is aborted; a thrown run already failed its attempt. */
  predicate RunOk(tasks: Tasks, t: TaskId, run: Run) {
    && (Live(run) ==>
          && PointsAt(tasks, t, run.enterprise, run.attempt) && tasks[t].mapping.identity == run.identity
          && tasks[t].status == if run.aborted then Cancelling else Running)
    && (run.phase == Threw && !run.aborted ==> !(PointsAt(tasks, t, run.enterprise, run.attempt) && Active(tasks[t].status)))
  }

  predicate CancellerOk(tasks: Tasks, runs: map<TaskId, Run>, t: TaskId, c: Canceller) {
    t in tasks ==>
      && PointsAt(tasks, t, c.enterprise, c.attempt) && tasks[t].mapping.identity == c.identity
      && (tasks[t].status == Cancelling || tasks[t].status == Cancelled || tasks[t].status == Success)
      && (tasks[t].status == Cancelling ==> !c.reported && (t in runs && Live(runs[t]) ==> c.awaiting == Some(runs[t].attempt)))
  }

  ghost predicate KeysOk(cancelled: set<(TaskId, AttemptId)>, cancellers: map<TaskId, Canceller>) {
    forall key | key in cancelled :: key.0 in cancellers && cancellers[key.0].attempt == key.1
  }

  predicate PayloadOk(tasks: Tasks, runs: map<TaskId, Run>, p: Payload) {
    && PointsAt(tasks, p.task, p.enterprise, p.attempt) && tasks[p.task].status == Pending && tasks[p.task].stage == Queued
    && tasks[p.task].mapping.identity == p.identity && p.task !in runs
  }

  predicate QueueOk(tasks: Tasks, runs: map<TaskId, Run>, pending: seq<Payload>) {
    pending != [] ==>
      && PayloadOk(tasks, runs, pending[0])
      && !InQueue(pending[1..], pending[0].task)
      && QueueOk(tasks, runs, pending[1..])
  }

  /**
   * Every unfinished task has an owner that will move it on, except a retry the queue dropped, and every success was
   * confirmed by Proxy.
   */
  predicate OwnerOk(task: Task, t: TaskId, s: Login) {
    match task.status
    case Pending =>
      if task.stage == Queued then InQueue(s.pending, t) && (t, task.attempt) !in s.past.stranded
      else (t, task.attempt) in s.past.stranded <==> !IsPreparing(s, t, task.attempt)
    case Running => t in s.runs && Live(s.runs[t]) && !s.runs[t].aborted && s.runs[t].attempt == task.attempt
    case Cancelling => t in s.cancellers && !s.cancellers[t].reported
    case Success => (task.mapping.identity, task.attempt) in s.past.confirmed
    case _ => true
  }

  /** A retry of this task waits for Proxy to prepare this attempt. */
  predicate IsPreparing(s: Login, t: TaskId, attempt: AttemptId) {
    attempt in s.preparing && s.preparing[attempt].task == t
  }

  /** Until Proxy answered, nothing but a cancellation touches the attempt of a retry, and it has never been queued. */
  predicate PreparationOk(s: Login, t: TaskId) {
    && (t in s.db.tasks && IsPreparing(s, t, s.db.tasks[t].attempt) ==>
          var task := s.db.tasks[t];
          && s.preparing[task.attempt].enterprise == task.enterprise
          && s.preparing[task.attempt].identity == task.mapping.identity
          && (task.status == Cancelling || task.status == Cancelled || (task.status == Pending && task.stage != Queued))
          && task.attempt !in s.past.enqueued)
    && (t in s.runs && Live(s.runs[t]) ==> !IsPreparing(s, t, s.runs[t].attempt))
  }

  /** All that ties one task to the queue's bookkeeping. */
  predicate LocalOk(s: Login, t: TaskId) {
    && PreparationOk(s, t)
    && (t in s.runs ==> RunOk(s.db.tasks, t, s.runs[t]))
    && (t in s.cancellers ==> CancellerOk(s.db.tasks, s.runs, t, s.cancellers[t]))
    && (t in s.db.tasks ==> OwnerOk(s.db.tasks[t], t, s))
  }

  ghost predicate IdsOk(s: Login) {
    && s.db.tasks.Keys <= s.past.taskIds && s.runs.Keys <= s.past.taskIds && s.cancellers.Keys <= s.past.taskIds
    && s.db.attempts.Keys <= s.past.attemptIds && s.preparing.Keys <= s.past.attemptIds
    && (forall key | key in s.past.stranded :: key.0 in s.past.taskIds && key.1 in s.past.attemptIds)
    && (forall a | a in s.preparing :: s.preparing[a].task in s.past.taskIds)
    && (forall t | t in s.runs :: s.runs[t].attempt in s.past.attemptIds)
    && (forall t | t in s.db.tasks :: s.db.tasks[t].attempt in s.past.attemptIds)
    && (forall q | q in s.inquiries :: q.task in s.past.taskIds && (q.task in s.db.tasks ==> s.db.tasks[q.task].mapping == q.snapshot.mapping))
  }

  // ---------------------------------------------------------------- queue order

  predicate Subsequence(a: seq<AttemptId>, b: seq<AttemptId>) {
    if a == [] then true
    else if b == [] then false
    else (a[0] == b[0] && Subsequence(a[1..], b[1..])) || Subsequence(a, b[1..])
  }

  function Attempts(pending: seq<Payload>): seq<AttemptId> {
    if pending == [] then [] else [pending[0].attempt] + Attempts(pending[1..])
  }

  /** Attempts are started in the order they were queued. */
  ghost predicate OrderOk(s: Login) {
    && Subsequence(s.past.started + Attempts(s.pending), s.past.enqueued)
    && (forall a | a in s.past.enqueued :: a in s.past.attemptIds)
  }

  ghost predicate QueueInv(s: Login) {
    && (forall t :: LocalOk(s, t))
    && KeysOk(s.cancelled, s.cancellers)
    && QueueOk(s.db.tasks, s.runs, s.pending)
    && IdsOk(s) && OrderOk(s)
  }

  ghost predicate LoginInv(s: Login) {
    StoreInv(s.db) && QueueInv(s)
  }
}
