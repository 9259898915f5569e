/**
 * Login's two tables: one row per task and one row per authorization attempt of a task. Every repository call is one
 * SQLite transaction, modelled as a function on the pair of tables; `TasksRepo` performs the same calls in place.
 */
module LoginStore {
  import opened Common

  datatype TaskStatus = Pending | Running | Cancelling | Success | Failed | Cancelled

  predicate Active(status: TaskStatus) {
    status == Pending || status == Running || status == Cancelling
  }

  /** Stage labels the protocol reads, and any other label a running login reports. */
  datatype Stage = Queued | Preparing | Deleting | Ended(status: TaskStatus) | Reported(name: string)

  datatype Mapping = Mapping(identity: Identity, ssoUser: string, ghLogin: string, ssoType: string)

  datatype Task = Task(
    enterprise: EnterpriseId, mapping: Mapping, attempt: AttemptId,
    status: TaskStatus, attempts: nat, stage: Stage, priorStage: Option<Stage>)

  /** `started` stands for a non-null `started_at`. */
  datatype Attempt = Attempt(task: TaskId, number: nat, status: TaskStatus, stage: Stage, started: bool)

  datatype Db = Db(tasks: map<TaskId, Task>, attempts: map<AttemptId, Attempt>)

  // ---------------------------------------------------------------- queries

  predicate Has(db: Db, enterprise: EnterpriseId, id: TaskId) {
    id in db.tasks && db.tasks[id].enterprise == enterprise
  }

  /** Identities are global, so the search ignores the enterprise. */
  predicate HasActiveTask(tasks: map<TaskId, Task>, identity: Identity) {
    exists t | t in tasks :: tasks[t].mapping.identity == identity && Active(tasks[t].status)
  }

  predicate IsCurrent(db: Db, enterprise: EnterpriseId, id: TaskId, attempt: AttemptId) {
    Has(db, enterprise, id) && db.tasks[id].attempt == attempt
  }

  ghost function MaxNumber(attempts: map<AttemptId, Attempt>, task: TaskId): (n: nat)
    ensures forall a | a in attempts && attempts[a].task == task :: attempts[a].number <= n
    ensures n == 0 || exists a :: a in attempts && attempts[a].task == task && attempts[a].number == n
    decreases |attempts|
  {
    if attempts == map[] then 0
    else
      var a :| a in attempts;
      var others := attempts - {a};
      var rest := MaxNumber(others, task);
      assert forall b | b in attempts && b != a :: b in others && others[b] == attempts[b];
      if attempts[a].task == task && attempts[a].number > rest then attempts[a].number else rest
  }

  // ---------------------------------------------------------------- transactions

  datatype CreateOutcome = Created(task: TaskId) | Existing(task: TaskId) | AttemptConflict | TaskAlreadyActive

  /** The verdict of `createTask`; `id` is the task id it would draw. */
  function CreateVerdict(db: Db, enterprise: EnterpriseId, mapping: Mapping, attempt: AttemptId, id: TaskId): CreateOutcome {
    if attempt in db.attempts && db.attempts[attempt].task in db.tasks then
      var owner := db.attempts[attempt].task;
      if db.tasks[owner].enterprise == enterprise && db.tasks[owner].mapping == mapping then Existing(owner) else AttemptConflict
    else if HasActiveTask(db.tasks, mapping.identity) then TaskAlreadyActive
    else Created(id)
  }

  function InsertTask(db: Db, enterprise: EnterpriseId, mapping: Mapping, attempt: AttemptId, id: TaskId): Db {
    Db(db.tasks[id := Task(enterprise, mapping, attempt, Pending, 0, Queued, None)],
       db.attempts[attempt := Attempt(id, 1, Pending, Queued, false)])
  }

  predicate CanReserve(db: Db, enterprise: EnterpriseId, id: TaskId, identity: Identity, expected: AttemptId) {
    && !HasActiveTask(db.tasks, identity)
    && IsCurrent(db, enterprise, id, expected)
    && db.tasks[id].status == Failed && db.tasks[id].stage != Deleting
  }

  function ReservedTask(task: Task, attempt: AttemptId): Task {
    task.(attempt := attempt, status := Pending, stage := Preparing)
  }

  ghost function Reserve(db: Db, id: TaskId, attempt: AttemptId): Db
    requires id in db.tasks
  {
    Db(db.tasks[id := ReservedTask(db.tasks[id], attempt)],
       db.attempts[attempt := Attempt(id, MaxNumber(db.attempts, id) + 1, Pending, Preparing, false)])
  }

  /** `UPDATE login_task_attempts ... WHERE id = ?` touches nothing when the row is missing. */
  function WriteAttempt(attempts: map<AttemptId, Attempt>, attempt: AttemptId, row: Attempt): map<AttemptId, Attempt> {
    if attempt in attempts then attempts[attempt := row] else attempts
  }

  function AttemptOf(db: Db, attempt: AttemptId): Attempt {
    if attempt in db.attempts then db.attempts[attempt] else Attempt(TaskId(""), 0, Failed, Queued, false)
  }

  function SetStage(db: Db, enterprise: EnterpriseId, id: TaskId, attempt: AttemptId, stage: Stage): Db {
    if !IsCurrent(db, enterprise, id, attempt) || !Active(db.tasks[id].status) then db
    else Db(db.tasks[id := db.tasks[id].(stage := stage)],
            WriteAttempt(db.attempts, attempt, AttemptOf(db, attempt).(stage := stage)))
  }

  predicate CanMarkRunning(db: Db, enterprise: EnterpriseId, id: TaskId, attempt: AttemptId) {
    IsCurrent(db, enterprise, id, attempt) && db.tasks[id].status == Pending
  }

  function MarkRunning(db: Db, enterprise: EnterpriseId, id: TaskId, attempt: AttemptId): Db {
    if !CanMarkRunning(db, enterprise, id, attempt) then db
    else Db(db.tasks[id := db.tasks[id].(status := Running, attempts := db.tasks[id].attempts + 1)],
            WriteAttempt(db.attempts, attempt, AttemptOf(db, attempt).(status := Running, started := true)))
  }

  function RequestCancellation(db: Db, enterprise: EnterpriseId, id: TaskId): Db {
    if !Has(db, enterprise, id) || !Active(db.tasks[id].status) then db
    else
      var attempt := db.tasks[id].attempt;
      Db(db.tasks[id := db.tasks[id].(status := Cancelling)],
         WriteAttempt(db.attempts, attempt, AttemptOf(db, attempt).(status := Cancelling)))
  }

  function FinishAttempt(db: Db, enterprise: EnterpriseId, id: TaskId, attempt: AttemptId, status: TaskStatus): Db {
    if !IsCurrent(db, enterprise, id, attempt) || !Active(db.tasks[id].status) then db
    else Db(db.tasks[id := db.tasks[id].(status := status, stage := Ended(status))],
            WriteAttempt(db.attempts, attempt, AttemptOf(db, attempt).(status := status, stage := Ended(status))))
  }

  predicate CanDelete(db: Db, enterprise: EnterpriseId, id: TaskId) {
    Has(db, enterprise, id) && !Active(db.tasks[id].status)
  }

  /** The foreign key removes the attempts of the task with it. */
  function DeleteTask(db: Db, enterprise: EnterpriseId, id: TaskId): Db {
    if !CanDelete(db, enterprise, id) then db
    else Db(db.tasks - {id}, map a | a in db.attempts && db.attempts[a].task != id :: db.attempts[a])
  }

  function ClaimTaskDeletion(db: Db, enterprise: EnterpriseId, id: TaskId): Db {
    if !CanDelete(db, enterprise, id) || db.tasks[id].stage == Deleting then db
    else db.(tasks := db.tasks[id := db.tasks[id].(priorStage := Some(db.tasks[id].stage), stage := Deleting)])
  }

  function Released(task: Task): Task {
    if task.stage != Deleting || Active(task.status) then task
    else task.(stage := if task.priorStage.Some? then task.priorStage.value else Ended(task.status), priorStage := None)
  }

  function ReleaseTaskDeletion(db: Db, enterprise: EnterpriseId, id: TaskId): Db {
    if !Has(db, enterprise, id) then db else db.(tasks := db.tasks[id := Released(db.tasks[id])])
  }

  /** A claimed deletion that is given up leaves the task as it was, its diagnostic stage included. */
  lemma ReleaseUndoesClaim(db: Db, enterprise: EnterpriseId, id: TaskId)
    requires CanDelete(db, enterprise, id) && db.tasks[id].stage != Deleting && db.tasks[id].priorStage == None
    ensures ReleaseTaskDeletion(ClaimTaskDeletion(db, enterprise, id), enterprise, id) == db
  {
    var claimed := ClaimTaskDeletion(db, enterprise, id);
    assert claimed.tasks[id := db.tasks[id]] == db.tasks;
  }

  // ---------------------------------------------------------------- recovery of an interrupted process

  function ClosedStatus(status: TaskStatus): TaskStatus {
    if status == Cancelling then Cancelled else if Active(status) then Failed else status
  }

  function ClosedTask(task: Task): Task {
    if Active(task.status)
    then task.(status := ClosedStatus(task.status), stage := Ended(ClosedStatus(task.status)))
    else Released(task)
  }

  predicate Interrupted(db: Db, attempt: AttemptId) {
    && attempt in db.attempts && db.attempts[attempt].task in db.tasks
    && var task := db.tasks[db.attempts[attempt].task]; task.attempt == attempt && Active(task.status)
  }

  function ClosedAttempt(db: Db, attempt: AttemptId): Attempt
    requires attempt in db.attempts
  {
    if Interrupted(db, attempt)
    then
      var status := ClosedStatus(db.tasks[db.attempts[attempt].task].status);
      db.attempts[attempt].(status := status, stage := Ended(status))
    else db.attempts[attempt]
  }

  /** What recovery leaves behind: nothing is active and no deletion is claimed. */
  function CloseInterrupted(db: Db): Db {
    Db(map t | t in db.tasks :: ClosedTask(db.tasks[t]), map a | a in db.attempts :: ClosedAttempt(db, a))
  }

  // ---------------------------------------------------------------- the invariant of the two tables

  /** The task row and the row of its current attempt agree: same status, and the same stage while it is unfinished. */
  predicate Agree(task: Task, row: Attempt) {
    row.status == task.status && (Active(task.status) ==> row.stage == task.stage)
  }

  /** A task points at one of its own attempts and shows that attempt's status. */
  ghost predicate Linked(db: Db) {
    && (forall t | t in db.tasks ::
          && db.tasks[t].attempt in db.attempts
          && db.attempts[db.tasks[t].attempt].task == t
          && Agree(db.tasks[t], db.attempts[db.tasks[t].attempt]))
    && (forall a | a in db.attempts :: db.attempts[a].task in db.tasks)
  }

  predicate IsSuperseded(db: Db, attempt: AttemptId) {
    attempt in db.attempts && db.attempts[attempt].task in db.tasks && db.tasks[db.attempts[attempt].task].attempt != attempt
  }

  ghost predicate SupersededFailed(db: Db) {
    forall a | IsSuperseded(db, a) :: db.attempts[a].status == Failed
  }

  predicate HasNumber(db: Db, task: TaskId, number: nat) {
    exists a | a in db.attempts :: db.attempts[a].task == task && db.attempts[a].number == number
  }

  function CurrentNumber(db: Db, task: TaskId): nat {
    if task in db.tasks then AttemptOf(db, db.tasks[task].attempt).number else 0
  }

  /** The attempts of a task are numbered 1..n without gaps or repeats, and the current one is n. */
  ghost predicate Numbered(db: Db) {
    && (forall a | a in db.attempts :: 1 <= db.attempts[a].number <= CurrentNumber(db, db.attempts[a].task))
    && (forall a, b | a in db.attempts && b in db.attempts && db.attempts[a].task == db.attempts[b].task
          && db.attempts[a].number == db.attempts[b].number :: a == b)
    && (forall t, k: nat | t in db.tasks && 1 <= k <= CurrentNumber(db, t) :: HasNumber(db, t, k))
  }

  function StartedAttempts(db: Db, task: TaskId): set<AttemptId> {
    set a | a in db.attempts && db.attempts[a].task == task && db.attempts[a].started
  }

  ghost predicate Counted(db: Db) {
    && (forall t | t in db.tasks :: db.tasks[t].attempts == |StartedAttempts(db, t)|)
    && (forall a | a in db.attempts && db.attempts[a].status == Pending :: !db.attempts[a].started)
  }

  ghost predicate OneActivePerIdentity(db: Db) {
    forall t, u | t in db.tasks && u in db.tasks && Active(db.tasks[t].status) && Active(db.tasks[u].status)
      && db.tasks[t].mapping.identity == db.tasks[u].mapping.identity :: t == u
  }

  ghost predicate StoreInv(db: Db) {
    Linked(db) && SupersededFailed(db) && Numbered(db) && Counted(db) && OneActivePerIdentity(db)
  }

  // ---------------------------------------------------------------- preservation

  /** `db'` keeps every attempt of the surviving tasks with its task and number, and the attempt each task points at. */
  ghost predicate SameHistory(db: Db, db': Db) {
    && (forall t | t in db'.tasks :: t in db.tasks && db'.tasks[t].attempt == db.tasks[t].attempt)
    && (forall a | a in db'.attempts ::
          && a in db.attempts && db'.attempts[a].task == db.attempts[a].task && db'.attempts[a].number == db.attempts[a].number)
    && (forall a | a in db.attempts && db.attempts[a].task in db'.tasks :: a in db'.attempts)
  }

  lemma HistoryKeepsNumbered(db: Db, db': Db)
    requires Linked(db) && Linked(db') && Numbered(db) && SameHistory(db, db')
    ensures Numbered(db')
  {
    forall t | t in db'.tasks ensures CurrentNumber(db', t) == CurrentNumber(db, t) {}
    forall a | a in db'.attempts ensures 1 <= db'.attempts[a].number <= CurrentNumber(db', db'.attempts[a].task) {
      assert db'.attempts[a].task in db'.tasks;
    }
    forall t, k: nat | t in db'.tasks && 1 <= k <= CurrentNumber(db', t) ensures HasNumber(db', t, k) {
      assert HasNumber(db, t, k);
      var a :| a in db.attempts && db.attempts[a].task == t && db.attempts[a].number == k;
      assert a in db'.attempts;
    }
  }

  /** A new current attempt, numbered one above the highest so far. */
  ghost predicate Extends(db: Db, db': Db, id: TaskId, attempt: AttemptId) {
    && attempt !in db.attempts && id in db'.tasks && db'.tasks[id].attempt == attempt
    && attempt in db'.attempts && db'.attempts == db.attempts[attempt := db'.attempts[attempt]]
    && db'.attempts[attempt].task == id && db'.attempts[attempt].number == CurrentNumber(db, id) + 1
    && forall t | t in db'.tasks && t != id :: t in db.tasks && db'.tasks[t].attempt == db.tasks[t].attempt
  }

  lemma ExtensionKeepsNumbered(db: Db, db': Db, id: TaskId, attempt: AttemptId)
    requires Linked(db) && Linked(db') && Numbered(db) && Extends(db, db', id, attempt)
    ensures Numbered(db')
  {
    ExtensionKeepsOrder(db, db', id, attempt);
    forall t, k: nat | t in db'.tasks && 1 <= k <= CurrentNumber(db', t) ensures HasNumber(db', t, k) {
      ExtensionHasNumber(db, db', id, attempt, t, k);
    }
  }

  lemma ExtensionKeepsOrder(db: Db, db': Db, id: TaskId, attempt: AttemptId)
    requires Linked(db) && Linked(db') && Numbered(db) && Extends(db, db', id, attempt)
    ensures forall a | a in db'.attempts :: 1 <= db'.attempts[a].number <= CurrentNumber(db', db'.attempts[a].task)
    ensures forall a, b | a in db'.attempts && b in db'.attempts && db'.attempts[a].task == db'.attempts[b].task
      && db'.attempts[a].number == db'.attempts[b].number :: a == b
  {
    ExtensionKeepsBounds(db, db', id, attempt);
    ExtensionKeepsDistinct(db, db', id, attempt);
  }

  lemma ExtensionKeepsBounds(db: Db, db': Db, id: TaskId, attempt: AttemptId)
    requires Linked(db) && Linked(db') && Numbered(db) && Extends(db, db', id, attempt)
    ensures forall a | a in db'.attempts :: 1 <= db'.attempts[a].number <= CurrentNumber(db', db'.attempts[a].task)
  {
    forall t | t in db'.tasks && t != id ensures CurrentNumber(db', t) == CurrentNumber(db, t) {}
  }

  lemma ExtensionKeepsDistinct(db: Db, db': Db, id: TaskId, attempt: AttemptId)
    requires Numbered(db) && Extends(db, db', id, attempt)
    ensures forall a, b | a in db'.attempts && b in db'.attempts && db'.attempts[a].task == db'.attempts[b].task
      && db'.attempts[a].number == db'.attempts[b].number :: a == b
  {
  }

  lemma ExtensionHasNumber(db: Db, db': Db, id: TaskId, attempt: AttemptId, t: TaskId, k: nat)
    requires Linked(db) && Extends(db, db', id, attempt) && t in db'.tasks && 1 <= k <= CurrentNumber(db', t)
    requires forall t, k: nat | t in db.tasks && 1 <= k <= CurrentNumber(db, t) :: HasNumber(db, t, k)
    ensures HasNumber(db', t, k)
  {
    if t == id && k == CurrentNumber(db', id) {
      assert db'.attempts[attempt].number == k;
    } else {
      assert t in db.tasks && HasNumber(db, t, k);
      var a :| a in db.attempts && db.attempts[a].task == t && db.attempts[a].number == k;
      assert a in db'.attempts && db'.attempts[a] == db.attempts[a];
    }
  }

  lemma SameStartsKeepCounted(db: Db, db': Db)
    requires Counted(db)
    requires forall t | t in db'.tasks :: t in db.tasks && db'.tasks[t].attempts == db.tasks[t].attempts
    requires forall a | a in db.attempts && db.attempts[a].task in db'.tasks && db.attempts[a].started ::
      a in db'.attempts && db'.attempts[a].task == db.attempts[a].task && db'.attempts[a].started
    requires forall a | a in db'.attempts && db'.attempts[a].started ::
      a in db.attempts && db'.attempts[a].task == db.attempts[a].task && db.attempts[a].started
    requires forall a | a in db'.attempts && db'.attempts[a].status == Pending :: !db'.attempts[a].started
    ensures Counted(db')
  {
    forall t | t in db'.tasks ensures db'.tasks[t].attempts == |StartedAttempts(db', t)| {
      assert StartedAttempts(db', t) == StartedAttempts(db, t);
    }
  }

  /** One transaction that rewrites a task and its current attempt. */
  ghost predicate Rewrites(db: Db, db': Db, id: TaskId, task: Task, row: Attempt) {
    && id in db.tasks && db.tasks[id].attempt in db.attempts
    && task.attempt == db.tasks[id].attempt && task.mapping == db.tasks[id].mapping
    && db' == Db(db.tasks[id := task], db.attempts[task.attempt := row])
    && row.task == id && row.number == db.attempts[task.attempt].number && Agree(task, row)
    && (Active(task.status) ==> Active(db.tasks[id].status))
    && (row.status == Pending ==> !row.started)
    && if row.started == db.attempts[task.attempt].started then task.attempts == db.tasks[id].attempts
       else row.started && task.attempts == db.tasks[id].attempts + 1
  }

  lemma RewriteLinksTask(db: Db, db': Db, id: TaskId, task: Task, row: Attempt, t: TaskId)
    requires Linked(db) && Rewrites(db, db', id, task, row) && t in db'.tasks
    ensures db'.tasks[t].attempt in db'.attempts && db'.attempts[db'.tasks[t].attempt].task == t
    ensures Agree(db'.tasks[t], db'.attempts[db'.tasks[t].attempt])
  {
    assert t != id ==> db.tasks[t].attempt != task.attempt;
  }

  lemma RewriteKeepsLinked(db: Db, db': Db, id: TaskId, task: Task, row: Attempt)
    requires Linked(db) && Rewrites(db, db', id, task, row)
    ensures Linked(db') && SameHistory(db, db')
  {
    forall t | t in db'.tasks
      ensures db'.tasks[t].attempt in db'.attempts && db'.attempts[db'.tasks[t].attempt].task == t
      ensures Agree(db'.tasks[t], db'.attempts[db'.tasks[t].attempt])
    {
      RewriteLinksTask(db, db', id, task, row, t);
    }
  }

  lemma RewriteKeepsUniqueness(db: Db, db': Db, id: TaskId, task: Task, row: Attempt)
    requires Linked(db) && Rewrites(db, db', id, task, row)
    ensures SupersededFailed(db) ==> SupersededFailed(db')
    ensures OneActivePerIdentity(db) ==> OneActivePerIdentity(db')
  {
    forall a | IsSuperseded(db', a) ensures IsSuperseded(db, a) && db'.attempts[a] == db.attempts[a] {}
    forall t | t in db'.tasks && Active(db'.tasks[t].status)
      ensures t in db.tasks && Active(db.tasks[t].status) && db'.tasks[t].mapping == db.tasks[t].mapping {}
  }

  lemma QuietRewriteKeepsCounted(db: Db, db': Db, id: TaskId, task: Task, row: Attempt)
    requires Counted(db) && Rewrites(db, db', id, task, row) && row.started == db.attempts[task.attempt].started
    requires db.attempts[task.attempt].task == id
    ensures Counted(db')
  {
    SameStartsKeepCounted(db, db');
  }

  lemma RewriteKeepsCounted(db: Db, db': Db, id: TaskId, task: Task, row: Attempt)
    requires Linked(db) && Counted(db) && Rewrites(db, db', id, task, row)
    ensures Counted(db')
  {
    if row.started == db.attempts[task.attempt].started {
      QuietRewriteKeepsCounted(db, db', id, task, row);
    } else {
      StartKeepsCounted(db, db', id, task.attempt);
    }
  }

  lemma RewriteKeepsInv(db: Db, db': Db, id: TaskId, task: Task, row: Attempt)
    requires StoreInv(db) && Rewrites(db, db', id, task, row)
    ensures StoreInv(db')
  {
    RewriteKeepsLinked(db, db', id, task, row);
    RewriteKeepsUniqueness(db, db', id, task, row);
    HistoryKeepsNumbered(db, db');
    RewriteKeepsCounted(db, db', id, task, row);
  }

  lemma StartKeepsCounted(db: Db, db': Db, id: TaskId, attempt: AttemptId)
    requires Counted(db) && id in db.tasks && id in db'.tasks
    requires attempt in db.attempts && db.attempts[attempt].task == id && !db.attempts[attempt].started
    requires attempt in db'.attempts && db'.attempts[attempt].task == id && db'.attempts[attempt].started
    requires db'.tasks == db.tasks[id := db'.tasks[id]] && db'.attempts == db.attempts[attempt := db'.attempts[attempt]]
    requires db'.tasks[id].attempts == db.tasks[id].attempts + 1
    requires db'.attempts[attempt].status != Pending
    ensures Counted(db')
  {
    forall t | t in db'.tasks ensures db'.tasks[t].attempts == |StartedAttempts(db', t)| {
      StartedAfter(db, db', id, attempt, t);
      assert attempt !in StartedAttempts(db, t);
    }
  }

  lemma StartedAfter(db: Db, db': Db, id: TaskId, attempt: AttemptId, t: TaskId)
    requires attempt in db.attempts && db.attempts[attempt].task == id && !db.attempts[attempt].started
    requires attempt in db'.attempts && db'.attempts[attempt].task == id && db'.attempts[attempt].started
    requires db'.attempts == db.attempts[attempt := db'.attempts[attempt]]
    ensures StartedAttempts(db', t) == StartedAttempts(db, t) + if t == id then {attempt} else {}
  {
  }

  lemma CreateKeepsLinks(db: Db, enterprise: EnterpriseId, mapping: Mapping, attempt: AttemptId, id: TaskId)
    requires Linked(db) && id !in db.tasks
    requires CreateVerdict(db, enterprise, mapping, attempt, id) == Created(id)
    ensures attempt !in db.attempts
    ensures Linked(InsertTask(db, enterprise, mapping, attempt, id))
    ensures SupersededFailed(db) ==> SupersededFailed(InsertTask(db, enterprise, mapping, attempt, id))
    ensures OneActivePerIdentity(db) ==> OneActivePerIdentity(InsertTask(db, enterprise, mapping, attempt, id))
  {
  }

  lemma CreateKeepsInv(db: Db, enterprise: EnterpriseId, mapping: Mapping, attempt: AttemptId, id: TaskId)
    requires StoreInv(db) && id !in db.tasks
    requires CreateVerdict(db, enterprise, mapping, attempt, id) == Created(id)
    ensures StoreInv(InsertTask(db, enterprise, mapping, attempt, id))
  {
    var db' := InsertTask(db, enterprise, mapping, attempt, id);
    CreateKeepsLinks(db, enterprise, mapping, attempt, id);
    ExtensionKeepsNumbered(db, db', id, attempt);
    FreshKeepsCounted(db, db', id, attempt);
  }

  lemma FreshKeepsCounted(db: Db, db': Db, id: TaskId, attempt: AttemptId)
    requires Linked(db) && Counted(db) && attempt !in db.attempts && attempt in db'.attempts && !db'.attempts[attempt].started
    requires db'.attempts == db.attempts[attempt := db'.attempts[attempt]]
    requires id in db'.tasks && db'.tasks == db.tasks[id := db'.tasks[id]]
    requires db'.tasks[id].attempts == if id in db.tasks then db.tasks[id].attempts else 0
    ensures Counted(db')
  {
    forall t | t in db'.tasks ensures db'.tasks[t].attempts == |StartedAttempts(db', t)| {
      assert StartedAttempts(db', t) == if t in db.tasks then StartedAttempts(db, t) else {};
    }
  }

  lemma ReserveKeepsLinks(db: Db, enterprise: EnterpriseId, id: TaskId, identity: Identity, expected: AttemptId, attempt: AttemptId)
    requires Linked(db) && CanReserve(db, enterprise, id, identity, expected)
    requires identity == db.tasks[id].mapping.identity && attempt !in db.attempts
    ensures Linked(Reserve(db, id, attempt))
    ensures SupersededFailed(db) ==> SupersededFailed(Reserve(db, id, attempt))
    ensures OneActivePerIdentity(db) ==> OneActivePerIdentity(Reserve(db, id, attempt))
  {
  }

  lemma CurrentIsHighest(db: Db, id: TaskId)
    requires Linked(db) && Numbered(db) && id in db.tasks
    ensures MaxNumber(db.attempts, id) == CurrentNumber(db, id)
  {
    assert db.tasks[id].attempt in db.attempts;
  }

  lemma ReserveKeepsInv(db: Db, enterprise: EnterpriseId, id: TaskId, identity: Identity, expected: AttemptId, attempt: AttemptId)
    requires StoreInv(db) && CanReserve(db, enterprise, id, identity, expected)
    requires identity == db.tasks[id].mapping.identity && attempt !in db.attempts
    ensures StoreInv(Reserve(db, id, attempt))
  {
    var db' := Reserve(db, id, attempt);
    ReserveKeepsLinks(db, enterprise, id, identity, expected, attempt);
    CurrentIsHighest(db, id);
    ExtensionKeepsNumbered(db, db', id, attempt);
    FreshKeepsCounted(db, db', id, attempt);
  }

  lemma DeleteKeepsInv(db: Db, enterprise: EnterpriseId, id: TaskId)
    requires StoreInv(db)
    ensures StoreInv(DeleteTask(db, enterprise, id))
  {
    if CanDelete(db, enterprise, id) {
      var db' := DeleteTask(db, enterprise, id);
      assert Linked(db');
      assert Numbered(db') by { HistoryKeepsNumbered(db, db'); }
      assert Counted(db') by { SameStartsKeepCounted(db, db'); }
    }
  }

  lemma ClosedTaskIsLinked(db: Db, t: TaskId)
    requires Linked(db) && t in db.tasks
    ensures var db' := CloseInterrupted(db);
      && db'.tasks[t].attempt == db.tasks[t].attempt
      && db'.tasks[t].attempt in db'.attempts && db'.attempts[db'.tasks[t].attempt].task == t
      && Agree(db'.tasks[t], db'.attempts[db'.tasks[t].attempt])
  {
    var db' := CloseInterrupted(db);
    var a := db.tasks[t].attempt;
    assert db'.tasks[t] == ClosedTask(db.tasks[t]);
    assert db'.attempts[a] == ClosedAttempt(db, a);
    assert Interrupted(db, a) <==> Active(db.tasks[t].status);
  }

  lemma CloseKeepsLinked(db: Db)
    requires Linked(db)
    ensures Linked(CloseInterrupted(db)) && SameHistory(db, CloseInterrupted(db))
  {
    var db' := CloseInterrupted(db);
    forall a | a in db'.attempts
      ensures db'.attempts[a].task == db.attempts[a].task && db'.attempts[a].number == db.attempts[a].number
    {
      assert db'.attempts[a] == ClosedAttempt(db, a);
    }
    forall t | t in db'.tasks
      ensures db'.tasks[t].attempt == db.tasks[t].attempt
      ensures db'.tasks[t].attempt in db'.attempts && db'.attempts[db'.tasks[t].attempt].task == t
      ensures Agree(db'.tasks[t], db'.attempts[db'.tasks[t].attempt])
    {
      ClosedTaskIsLinked(db, t);
    }
  }

  lemma CloseKeepsUniqueness(db: Db)
    requires Linked(db)
    ensures SupersededFailed(db) ==> SupersededFailed(CloseInterrupted(db))
    ensures OneActivePerIdentity(CloseInterrupted(db))
  {
    var db' := CloseInterrupted(db);
    forall t | t in db'.tasks ensures !Active(db'.tasks[t].status) && db'.tasks[t].attempt == db.tasks[t].attempt {
      assert db'.tasks[t] == ClosedTask(db.tasks[t]);
    }
    forall a | IsSuperseded(db', a) ensures IsSuperseded(db, a) && db'.attempts[a] == db.attempts[a] {
      assert db'.attempts[a] == ClosedAttempt(db, a);
    }
  }

  lemma CloseKeepsInv(db: Db)
    requires StoreInv(db)
    ensures StoreInv(CloseInterrupted(db))
  {
    CloseKeepsLinked(db);
    CloseKeepsUniqueness(db);
    HistoryKeepsNumbered(db, CloseInterrupted(db));
    CloseKeepsCounted(db);
  }

  lemma CloseKeepsCounted(db: Db)
    requires Counted(db)
    ensures Counted(CloseInterrupted(db))
  {
    var db' := CloseInterrupted(db);
    forall a | a in db'.attempts
      ensures db'.attempts[a].task == db.attempts[a].task && db'.attempts[a].started == db.attempts[a].started
      ensures db'.attempts[a].status == Pending ==> db.attempts[a].status == Pending
    {
      assert db'.attempts[a] == ClosedAttempt(db, a);
    }
    forall t | t in db'.tasks ensures db'.tasks[t].attempts == db.tasks[t].attempts {
      assert db'.tasks[t] == ClosedTask(db.tasks[t]);
    }
    SameStartsKeepCounted(db, db');
  }

  lemma SetStageKeepsInv(db: Db, enterprise: EnterpriseId, id: TaskId, attempt: AttemptId, stage: Stage)
    requires StoreInv(db)
    ensures StoreInv(SetStage(db, enterprise, id, attempt, stage))
  {
    if IsCurrent(db, enterprise, id, attempt) && Active(db.tasks[id].status) {
      RewriteKeepsInv(db, SetStage(db, enterprise, id, attempt, stage), id,
                      db.tasks[id].(stage := stage), db.attempts[attempt].(stage := stage));
    }
  }

  lemma MarkRunningKeepsInv(db: Db, enterprise: EnterpriseId, id: TaskId, attempt: AttemptId)
    requires StoreInv(db)
    ensures StoreInv(MarkRunning(db, enterprise, id, attempt))
  {
    if CanMarkRunning(db, enterprise, id, attempt) {
      RewriteKeepsInv(db, MarkRunning(db, enterprise, id, attempt), id,
                      db.tasks[id].(status := Running, attempts := db.tasks[id].attempts + 1),
                      db.attempts[attempt].(status := Running, started := true));
    }
  }

  lemma CancellationKeepsInv(db: Db, enterprise: EnterpriseId, id: TaskId)
    requires StoreInv(db)
    ensures StoreInv(RequestCancellation(db, enterprise, id))
  {
    if Has(db, enterprise, id) && Active(db.tasks[id].status) {
      RewriteKeepsInv(db, RequestCancellation(db, enterprise, id), id,
                      db.tasks[id].(status := Cancelling), db.attempts[db.tasks[id].attempt].(status := Cancelling));
    }
  }

  lemma FinishKeepsInv(db: Db, enterprise: EnterpriseId, id: TaskId, attempt: AttemptId, status: TaskStatus)
    requires StoreInv(db) && !Active(status)
    ensures StoreInv(FinishAttempt(db, enterprise, id, attempt, status))
  {
    if IsCurrent(db, enterprise, id, attempt) && Active(db.tasks[id].status) {
      RewriteKeepsInv(db, FinishAttempt(db, enterprise, id, attempt, status), id,
                      db.tasks[id].(status := status, stage := Ended(status)),
                      db.attempts[attempt].(status := status, stage := Ended(status)));
    }
  }

  lemma ClaimKeepsInv(db: Db, enterprise: EnterpriseId, id: TaskId)
    requires StoreInv(db)
    ensures StoreInv(ClaimTaskDeletion(db, enterprise, id))
    ensures StoreInv(ReleaseTaskDeletion(db, enterprise, id))
  {
    if Has(db, enterprise, id) {
      var row := db.attempts[db.tasks[id].attempt];
      assert db.attempts[db.tasks[id].attempt := row] == db.attempts;
      RewriteKeepsInv(db, ReleaseTaskDeletion(db, enterprise, id), id, Released(db.tasks[id]), row);
      if CanDelete(db, enterprise, id) && db.tasks[id].stage != Deleting {
        RewriteKeepsInv(db, ClaimTaskDeletion(db, enterprise, id), id,
                        db.tasks[id].(priorStage := Some(db.tasks[id].stage), stage := Deleting), row);
      }
    }
  }
}
