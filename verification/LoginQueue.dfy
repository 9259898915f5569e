/**
 * The objects behind the Login process: the task repository over its two tables and the in-memory queue, with the fields
 * and loops of the program. Every method is tied to the step function whose properties the other Login modules prove.
 */
module LoginQueue {
  import opened Common
  import opened LoginStore
  import opened LoginService

  class TasksRepo {
    var tasks: map<TaskId, Task>
    var attempts: map<AttemptId, Attempt>

    constructor ()
      ensures Tables() == Db(map[], map[])
    {
      tasks, attempts := map[], map[];
    }

    function Tables(): Db
      reads this
    {
      Db(tasks, attempts)
    }

    method CreateTask(enterprise: EnterpriseId, mapping: Mapping, attempt: AttemptId, id: TaskId) returns (outcome: CreateOutcome)
      modifies this
      ensures outcome == CreateVerdict(old(Tables()), enterprise, mapping, attempt, id)
      ensures Tables() == if outcome.Created? then InsertTask(old(Tables()), enterprise, mapping, attempt, id) else old(Tables())
    {
      outcome := CreateVerdict(Tables(), enterprise, mapping, attempt, id);
      if outcome.Created? {
        tasks := tasks[id := Task(enterprise, mapping, attempt, Pending, 0, Queued, None)];
        attempts := attempts[attempt := Attempt(id, 1, Pending, Queued, false)];
      }
    }

    /** `COALESCE(MAX(attempt_number), 0)` over the attempts of one task. */
    method HighestNumber(task: TaskId) returns (n: nat)
      ensures n == MaxNumber(attempts, task)
    {
      n := 0;
      var left := attempts.Keys;
      while left != {}
        invariant left <= attempts.Keys
        invariant forall a | a in attempts && a !in left && attempts[a].task == task :: attempts[a].number <= n
        invariant n == 0 || exists a :: a in attempts && a !in left && attempts[a].task == task && attempts[a].number == n
        decreases |left|
      {
        var a :| a in left;
        left := left - {a};
        if attempts[a].task == task && attempts[a].number > n { n := attempts[a].number; }
      }
    }

    method ReserveRetry(enterprise: EnterpriseId, id: TaskId, snapshot: Task, attempt: AttemptId) returns (reserved: bool)
      modifies this
      ensures reserved <==> old(CanReserve(Tables(), enterprise, id, snapshot.mapping.identity, snapshot.attempt))
      ensures Tables() == if reserved then Reserve(old(Tables()), id, attempt) else old(Tables())
    {
      reserved := CanReserve(Tables(), enterprise, id, snapshot.mapping.identity, snapshot.attempt);
      if reserved {
        var highest := HighestNumber(id);
        tasks := tasks[id := ReservedTask(tasks[id], attempt)];
        attempts := attempts[attempt := Attempt(id, highest + 1, Pending, Preparing, false)];
      }
    }

    method SetStage(enterprise: EnterpriseId, id: TaskId, attempt: AttemptId, stage: Stage)
      modifies this
      ensures Tables() == LoginStore.SetStage(old(Tables()), enterprise, id, attempt, stage)
    {
      if IsCurrent(Tables(), enterprise, id, attempt) && Active(tasks[id].status) {
        tasks := tasks[id := tasks[id].(stage := stage)];
        if attempt in attempts { attempts := attempts[attempt := attempts[attempt].(stage := stage)]; }
      }
    }

    method MarkRunning(enterprise: EnterpriseId, id: TaskId, attempt: AttemptId) returns (running: bool)
      modifies this
      ensures running <==> old(CanMarkRunning(Tables(), enterprise, id, attempt))
      ensures Tables() == LoginStore.MarkRunning(old(Tables()), enterprise, id, attempt)
    {
      running := CanMarkRunning(Tables(), enterprise, id, attempt);
      if running {
        tasks := tasks[id := tasks[id].(status := Running, attempts := tasks[id].attempts + 1)];
        if attempt in attempts { attempts := attempts[attempt := attempts[attempt].(status := Running, started := true)]; }
      }
    }

    method RequestCancellation(enterprise: EnterpriseId, id: TaskId)
      modifies this
      ensures Tables() == LoginStore.RequestCancellation(old(Tables()), enterprise, id)
    {
      if Has(Tables(), enterprise, id) && (tasks[id].status == Pending || tasks[id].status == Running) {
        tasks := tasks[id := tasks[id].(status := Cancelling)];
      }
      if Has(Tables(), enterprise, id) && tasks[id].status == Cancelling && tasks[id].attempt in attempts {
        attempts := attempts[tasks[id].attempt := attempts[tasks[id].attempt].(status := Cancelling)];
      }
    }

    method FinishAttempt(enterprise: EnterpriseId, id: TaskId, attempt: AttemptId, status: TaskStatus)
      modifies this
      ensures Tables() == LoginStore.FinishAttempt(old(Tables()), enterprise, id, attempt, status)
    {
      if IsCurrent(Tables(), enterprise, id, attempt) && Active(tasks[id].status) {
        tasks := tasks[id := tasks[id].(status := status, stage := Ended(status))];
        if attempt in attempts { attempts := attempts[attempt := attempts[attempt].(status := status, stage := Ended(status))]; }
      }
    }

    /** The attempts of the task go with it. */
    method DeleteTask(enterprise: EnterpriseId, id: TaskId) returns (deleted: bool)
      modifies this
      ensures deleted <==> old(CanDelete(Tables(), enterprise, id))
      ensures Tables() == LoginStore.DeleteTask(old(Tables()), enterprise, id)
    {
      deleted := CanDelete(Tables(), enterprise, id);
      if deleted {
        tasks := tasks - {id};
        attempts := map a | a in attempts && attempts[a].task != id :: attempts[a];
      }
    }

    method ClaimTaskDeletion(enterprise: EnterpriseId, id: TaskId) returns (claimed: bool)
      modifies this
      ensures claimed <==> old(CanDelete(Tables(), enterprise, id) && tasks[id].stage != Deleting)
      ensures Tables() == LoginStore.ClaimTaskDeletion(old(Tables()), enterprise, id)
    {
      claimed := CanDelete(Tables(), enterprise, id) && tasks[id].stage != Deleting;
      if claimed { tasks := tasks[id := tasks[id].(priorStage := Some(tasks[id].stage), stage := Deleting)]; }
    }

    method ReleaseTaskDeletion(enterprise: EnterpriseId, id: TaskId)
      modifies this
      ensures Tables() == LoginStore.ReleaseTaskDeletion(old(Tables()), enterprise, id)
    {
      if Has(Tables(), enterprise, id) { tasks := tasks[id := Released(tasks[id])]; }
    }

    method ListUnfinished(enterprise: EnterpriseId) returns (list: seq<TaskId>)
      ensures Distinct(list) && forall t :: t in list <==> t in Unfinished(Tables(), enterprise)
    {
      list := [];
      var left := set t | t in tasks && tasks[t].enterprise == enterprise && Active(tasks[t].status);
      while left != {}
        invariant Distinct(list) && forall t :: t in Unfinished(Tables(), enterprise) <==> t in list || t in left
        invariant forall t | t in list :: t !in left
        decreases |left|
      {
        var t :| t in left;
        list, left := list + [t], left - {t};
      }
    }

    /**
     * Recovery of one enterprise: deletion claims are released, then every unfinished task is cancelled or failed, one
     * transaction each, and listed so that its attempt is reported to Proxy.
     */
    method CloseInterruptedTasks(enterprise: EnterpriseId) returns (notify: seq<TaskId>)
      modifies this
      ensures Distinct(notify) && forall t :: t in notify <==> t in Unfinished(ReleaseAll(old(Tables()), enterprise), enterprise)
      ensures Tables() == FinishAll(ReleaseAll(old(Tables()), enterprise), notify, enterprise)
    {
      ReleaseDeletions(enterprise);
      ghost var released := Tables();
      var unfinished := ListUnfinished(enterprise);
      notify := [];
      while |notify| < |unfinished|
        invariant |notify| <= |unfinished| && notify == unfinished[..|notify|]
        invariant Tables() == FinishAll(released, notify, enterprise)
      {
        var t := unfinished[|notify|];
        assert (notify + [t])[..|notify|] == notify;
        assert t in Unfinished(released, enterprise);
        CloseTask(enterprise, t);
        notify := notify + [t];
      }
    }

    /** `releaseTaskDeletion` without a task id. */
    method ReleaseDeletions(enterprise: EnterpriseId)
      modifies this
      ensures Tables() == ReleaseAll(old(Tables()), enterprise)
    {
      tasks := map t | t in tasks :: if tasks[t].enterprise == enterprise then Released(tasks[t]) else tasks[t];
    }

    method CloseTask(enterprise: EnterpriseId, t: TaskId)
      requires t in tasks
      modifies this
      ensures Tables() == LoginStore.FinishAttempt(old(Tables()), enterprise, t, old(tasks[t].attempt), ClosedStatus(old(tasks[t].status)))
    {
      FinishAttempt(enterprise, t, tasks[t].attempt, if tasks[t].status == Cancelling then Cancelled else Failed);
    }

    method RecoverEnterprise(enterprise: EnterpriseId, ghost before: Db, ghost done: seq<EnterpriseId>)
      requires Linked(before) && enterprise !in done && ClosedFor(before, Tables(), done)
      modifies this
      ensures ClosedFor(before, Tables(), done + [enterprise])
    {
      ghost var now := Tables();
      ClosedKeepsLinked(before, now, done);
      var notify := CloseInterruptedTasks(enterprise);
      RecoveryOfOne(now, enterprise, notify);
      OneMoreEnterprise(before, now, Tables(), done, enterprise);
    }

    /** The registered enterprises are distinct, and startup refuses a database with tasks of any other. */
    method RecoverLoginOutcomes(enterprises: seq<EnterpriseId>)
      requires Linked(Tables())
      requires forall i, j | 0 <= i < j < |enterprises| :: enterprises[i] != enterprises[j]
      requires forall t | t in tasks :: tasks[t].enterprise in enterprises
      modifies this
      ensures Tables() == CloseInterrupted(old(Tables()))
    {
      ghost var before := Tables();
      assert ClosedFor(before, before, []);
      var k := 0;
      while k < |enterprises|
        invariant k <= |enterprises|
        invariant ClosedFor(before, Tables(), enterprises[..k])
      {
        RecoverEnterprise(enterprises[k], before, enterprises[..k]);
        assert enterprises[..k + 1] == enterprises[..k] + [enterprises[k]];
        k := k + 1;
      }
      assert enterprises[..k] == enterprises;
      EverythingClosed(before, Tables(), enterprises);
    }
  }

  // ---------------------------------------------------------------- the queue

  /** A payload of another task is neither the one searched for nor removed. */
  lemma PassOver(pending: seq<Payload>, id: TaskId, index: nat)
    requires index < |pending| && pending[index].task != id
    ensures InQueue(pending[index..], id) <==> InQueue(pending[index + 1..], id)
    ensures pending[..index] + RemoveTask(pending[index..], id) == pending[..index + 1] + RemoveTask(pending[index + 1..], id)
  {
    assert pending[index..][1..] == pending[index + 1..];
  }

  lemma SearchEnds(pending: seq<Payload>, id: TaskId, index: nat)
    requires index <= |pending| && (index < |pending| ==> pending[index].task == id)
    ensures InQueue(pending[index..], id) <==> index < |pending|
    ensures pending[..index] + RemoveTask(pending[index..], id)
      == if index < |pending| then pending[..index] + pending[index + 1..] else pending
  {
    if index < |pending| { assert pending[index..][1..] == pending[index + 1..]; }
  }

  method FirstOf(pending: seq<Payload>, id: TaskId) returns (index: nat)
    ensures index <= |pending|
    ensures InQueue(pending, id) <==> index < |pending|
    ensures RemoveTask(pending, id) == if index < |pending| then pending[..index] + pending[index + 1..] else pending
  {
    index := 0;
    assert pending[0..] == pending && pending[..0] + RemoveTask(pending, id) == RemoveTask(pending, id);
    while index < |pending| && pending[index].task != id
      invariant index <= |pending|
      invariant InQueue(pending, id) <==> InQueue(pending[index..], id)
      invariant RemoveTask(pending, id) == pending[..index] + RemoveTask(pending[index..], id)
    {
      PassOver(pending, id, index);
      index := index + 1;
    }
    SearchEnds(pending, id, index);
  }

  /** What a completion promise stands for: the run it belongs to and where that run is. */
  datatype Completion = Completion(enterprise: EnterpriseId, attempt: AttemptId, identity: Identity, phase: Phase)

  function RunOf(c: Completion, aborted: bool): Run {
    Run(c.enterprise, c.attempt, c.identity, c.phase, aborted)
  }

  ghost function Runs(active: set<TaskId>, controllers: map<TaskId, bool>, completions: map<TaskId, Completion>): (runs: map<TaskId, Run>)
    requires active == controllers.Keys == completions.Keys
    ensures runs.Keys == active && |runs| == |active|
  {
    var runs := map t | t in active :: RunOf(completions[t], controllers[t]);
    assert runs.Keys == active && |runs| == |runs.Keys|;
    runs
  }

  lemma RunAdded(active: set<TaskId>, controllers: map<TaskId, bool>, completions: map<TaskId, Completion>, t: TaskId, c: Completion)
    requires active == controllers.Keys == completions.Keys
    ensures Runs(active + {t}, controllers[t := false], completions[t := c]) == Runs(active, controllers, completions)[t := RunOf(c, false)]
  {
  }

  lemma RunMoved(active: set<TaskId>, controllers: map<TaskId, bool>, completions: map<TaskId, Completion>, t: TaskId, phase: Phase)
    requires active == controllers.Keys == completions.Keys && t in active
    ensures var runs := Runs(active, controllers, completions);
      Runs(active, controllers, completions[t := completions[t].(phase := phase)]) == runs[t := runs[t].(phase := phase)]
  {
  }

  lemma RunRemoved(active: set<TaskId>, controllers: map<TaskId, bool>, completions: map<TaskId, Completion>, t: TaskId)
    requires active == controllers.Keys == completions.Keys
    ensures Runs(active - {t}, controllers - {t}, completions - {t}) == Runs(active, controllers, completions) - {t}
  {
  }

  class LoginQueue {
    const repo: TasksRepo
    var pending: seq<Payload>
    var active: set<TaskId>
    var cancelled: set<(TaskId, AttemptId)>
    /** Per run: whether its signal was aborted. */
    var controllers: map<TaskId, bool>
    var completions: map<TaskId, Completion>
    var cancelling: set<TaskId>
    /** The suspended `finishCancellation` calls. */
    var finishers: map<TaskId, Canceller>
    var accepting: bool
    ghost var past: History

    constructor (repo: TasksRepo)
      ensures Valid() && this.repo == repo && fresh(this)
      ensures View() == Login(repo.Tables(), [], map[], {}, map[], true, {}, map[], {}, History({}, {}, {}, {}, [], []))
    {
      this.repo := repo;
      pending, active, cancelled, controllers, completions, cancelling, finishers := [], {}, {}, map[], map[], {}, map[];
      accepting, past := true, History({}, {}, {}, {}, [], []);
    }

    ghost predicate Valid()
      reads this
    {
      active == controllers.Keys == completions.Keys && cancelling == finishers.Keys
    }

    /** The queue's part of the Login process; retries in flight and sent messages belong to their callers. */
    ghost function View(): Login
      reads this, repo
      requires Valid()
    {
      Login(repo.Tables(), pending,
            Runs(active, controllers, completions), cancelled, finishers, accepting, {}, map[], {}, past)
    }

    /** `pending.findIndex`: the first payload of the task, or the length of the queue. */
    method FindIndex(id: TaskId) returns (index: nat)
      ensures index <= |pending|
      ensures InQueue(pending, id) <==> index < |pending|
      ensures RemoveTask(pending, id) == if index < |pending| then pending[..index] + pending[index + 1..] else pending
    {
      index := FirstOf(pending, id);
    }

    method IsBusy(id: TaskId) returns (busy: bool)
      requires Valid()
      ensures busy <==> LoginService.IsBusy(View(), id)
    {
      var index := FindIndex(id);
      busy := id in active || index < |pending|;
    }

    method Occupy(p: Payload, phase: Phase)
      requires Valid()
      modifies this`active, this`controllers, this`completions
      ensures Valid()
      ensures Runs(active, controllers, completions)
        == old(Runs(active, controllers, completions))[p.task := RunOf(Completion(p.enterprise, p.attempt, p.identity, phase), false)]
    {
      var c := Completion(p.enterprise, p.attempt, p.identity, phase);
      RunAdded(active, controllers, completions, p.task, c);
      active, controllers, completions := active + {p.task}, controllers[p.task := false], completions[p.task := c];
    }

    /** Runs up to the first await of the runner, which marks the task running. */
    method Start(p: Payload)
      requires Valid()
      modifies this, repo
      ensures Valid() && View() == LoginService.Start(old(View()), p)
    {
      var running := repo.MarkRunning(p.enterprise, p.task, p.attempt);
      Occupy(p, if running then Authorizing else Settling);
      past := past.(started := past.started + [p.attempt]);
    }

    method Drain(limit: nat)
      requires Valid()
      modifies this, repo
      ensures Valid() && View() == LoginService.Drain(old(View()), limit)
    {
      if !accepting { return; }
      while |active| < limit && |pending| > 0
        invariant Valid() && accepting
        invariant LoginService.Drain(View(), limit) == LoginService.Drain(old(View()), limit)
        decreases |pending|
      {
        ghost var before := View();
        var p := pending[0];
        pending := pending[1..];
        assert View() == before.(pending := before.pending[1..]);
        if (p.task, p.attempt) !in cancelled && CanMarkRunning(repo.Tables(), p.enterprise, p.task, p.attempt) { Start(p); }
      }
    }

    method Push(p: Payload, limit: nat)
      requires Valid()
      modifies this, repo
      ensures Valid() && View() == LoginService.Drain(LoginService.Push(old(View()), p), limit)
    {
      pending, past := pending + [p], past.(enqueued := past.enqueued + [p.attempt]);
      Drain(limit);
    }

    method Enqueue(enterprise: EnterpriseId, mapping: Mapping, attempt: AttemptId, id: TaskId, limit: nat)
      requires Valid()
      modifies this, repo
      ensures Valid() && View() == LoginService.Enqueue(old(View()), enterprise, mapping, attempt, id, limit)
    {
      var outcome := repo.CreateTask(enterprise, mapping, attempt, id);
      match outcome
      case Created(_) =>
        past := past.(taskIds := past.taskIds + {id}, attemptIds := past.attemptIds + {attempt});
        var busy := IsBusy(id);
        if !busy { Push(Payload(enterprise, id, attempt, mapping.identity), limit); }
      case Existing(task) =>
        var busy := IsBusy(task);
        if busy || repo.attempts[attempt].status != Pending || repo.attempts[attempt].stage != Queued { return; }
        Push(Payload(enterprise, task, attempt, mapping.identity), limit);
      case _ =>
    }

    method Retry(enterprise: EnterpriseId, task: TaskId, attempt: AttemptId, identity: Identity, limit: nat)
      requires Valid()
      modifies this, repo
      ensures Valid()
      ensures View() == if CanMarkRunning(old(repo.Tables()), enterprise, task, attempt)
        then QueueRetry(old(View()), attempt, Preparation(enterprise, task, identity), limit) else old(View())
    {
      if !CanMarkRunning(repo.Tables(), enterprise, task, attempt) { return; }
      var busy := IsBusy(task);
      if busy {
        past := past.(stranded := past.stranded + {(task, attempt)});
        return;
      }
      repo.SetStage(enterprise, task, attempt, Queued);
      Push(Payload(enterprise, task, attempt, identity), limit);
    }

    method Cancel(enterprise: EnterpriseId, id: TaskId)
      requires Valid()
      modifies this, repo
      ensures Valid() && View() == LoginService.Cancel(old(View()), enterprise, id)
    {
      if !Has(repo.Tables(), enterprise, id) || !Active(repo.tasks[id].status) { return; }
      repo.RequestCancellation(enterprise, id);
      var task := repo.tasks[id];
      cancelled := cancelled + {(id, task.attempt)};
      Unqueue(id);
      AbortRun(id);
      OpenCancellation(id, task);
    }

    method Unqueue(id: TaskId)
      requires Valid()
      modifies this`pending
      ensures Valid() && View() == old(View()).(pending := RemoveTask(old(pending), id))
    {
      var index := FindIndex(id);
      if index < |pending| { pending := pending[..index] + pending[index + 1..]; }
    }

    /** At most one `finishCancellation` per task; it captures the completion of the run it must wait for. */
    method OpenCancellation(id: TaskId, task: Task)
      requires Valid()
      modifies this`cancelling, this`finishers
      ensures Valid()
      ensures var s := old(View());
        var awaiting := if id in s.runs then Some(s.runs[id].attempt) else None;
        View() == s.(cancellers := if id in s.cancellers then s.cancellers
          else s.cancellers[id := Canceller(task.enterprise, task.attempt, task.mapping.identity, awaiting, false)])
    {
      if id !in cancelling {
        cancelling := cancelling + {id};
        var awaiting := if id in completions then Some(completions[id].attempt) else None;
        finishers := finishers[id := Canceller(task.enterprise, task.attempt, task.mapping.identity, awaiting, false)];
      }
    }

    method AbortRun(id: TaskId)
      requires Valid()
      modifies this`controllers
      ensures Valid() && View() == old(View()).(runs := Abort(old(View()).runs, id))
    {
      ghost var runs := View().runs;
      if id in controllers { controllers := controllers[id := true]; }
      assert View().runs == Abort(runs, id);
    }

    /** After the awaited run settled: true when the cancelled attempt is reported to Proxy. */
    method FinishCancellation(id: TaskId) returns (report: bool)
      requires Valid() && id in finishers
      modifies this`finishers, repo
      ensures Valid()
      ensures var s := LoginService.FinishCancellation(old(View()), id);
        View() == s.(sent := {}) && s.sent == if report then {FailRequest(s.cancellers[id].enterprise, s.cancellers[id].identity, s.cancellers[id].attempt)} else {}
    {
      var c := finishers[id];
      finishers := finishers[id := c.(reported := true)];
      report := IsCurrent(repo.Tables(), c.enterprise, id, c.attempt) && repo.tasks[id].status == Cancelling;
      if report { repo.FinishAttempt(c.enterprise, id, c.attempt, Cancelled); }
    }

    method Advance(id: TaskId, phase: Phase)
      requires Valid() && id in active
      modifies this`completions
      ensures Valid() && View() == InPhase(old(View()), id, phase)
    {
      RunMoved(active, controllers, completions, id, phase);
      completions := completions[id := completions[id].(phase := phase)];
    }

    /** The catch handler of a run and `failRun`: true when the failure is reported to Proxy. */
    method CatchRun(id: TaskId) returns (report: bool)
      requires Valid() && id in active
      modifies this`completions, repo
      ensures Valid()
      ensures var s := RunCaught(old(View()), id);
        View() == s.(sent := {}) && s.sent == if report then {FailRequest(s.runs[id].enterprise, s.runs[id].identity, s.runs[id].attempt)} else {}
    {
      var c := completions[id];
      report := !controllers[id];
      Advance(id, if report then Reporting else Settling);
      if report { repo.FinishAttempt(c.enterprise, id, c.attempt, Failed); }
    }

    /** The `finally` of a run: its slot is freed and the queue drained. */
    method Settle(id: TaskId, limit: nat)
      requires Valid()
      modifies this, repo
      ensures Valid() && View() == SlotFreed(old(View()), id, limit)
    {
      RunRemoved(active, controllers, completions, id);
      active, controllers, completions := active - {id}, controllers - {id}, completions - {id};
      Drain(limit);
    }

    /** The `finally` blocks of `finishCancellation` and of its caller. */
    method CloseCancellation(id: TaskId)
      requires Valid() && id in finishers
      modifies this
      ensures Valid() && View() == LoginService.CloseCancellation(old(View()), id)
    {
      cancelled := cancelled - {(id, finishers[id].attempt)};
      cancelling, finishers := cancelling - {id}, finishers - {id};
    }

    method StopAccepting()
      requires Valid()
      modifies this
      ensures Valid() && View() == old(View()).(accepting := false)
    {
      accepting := false;
    }
  }

  predicate Distinct(list: seq<TaskId>) {
    forall i, j | 0 <= i < j < |list| :: list[i] != list[j]
  }

  ghost function Unfinished(db: Db, enterprise: EnterpriseId): set<TaskId> {
    set t | t in db.tasks && db.tasks[t].enterprise == enterprise && Active(db.tasks[t].status)
  }

  ghost function ReleaseAll(db: Db, enterprise: EnterpriseId): Db {
    db.(tasks := map t | t in db.tasks :: if db.tasks[t].enterprise == enterprise then Released(db.tasks[t]) else db.tasks[t])
  }

  /** One transaction per task, in the order of the list. */
  ghost function FinishAll(db: Db, list: seq<TaskId>, enterprise: EnterpriseId): (r: Db)
    ensures r.tasks.Keys == db.tasks.Keys
  {
    if list == [] then db
    else
      var last := list[|list| - 1];
      var now := FinishAll(db, list[..|list| - 1], enterprise);
      if last !in now.tasks then now
      else FinishAttempt(now, enterprise, last, now.tasks[last].attempt, ClosedStatus(now.tasks[last].status))
  }

  // ---------------------------------------------------------------- what recovery leaves behind, row by row

  function TaskAfter(db: Db, closed: bool, t: TaskId): Task
    requires t in db.tasks
  {
    if closed then ClosedTask(db.tasks[t]) else db.tasks[t]
  }

  predicate AttemptCloses(db: Db, enterprises: seq<EnterpriseId>, a: AttemptId) {
    Interrupted(db, a) && db.tasks[db.attempts[a].task].enterprise in enterprises
  }

  predicate TaskClosed(db: Db, now: Db, enterprises: seq<EnterpriseId>, t: TaskId) {
    if t in db.tasks then t in now.tasks && now.tasks[t] == TaskAfter(db, db.tasks[t].enterprise in enterprises, t)
    else t !in now.tasks
  }

  predicate AttemptClosed(db: Db, now: Db, enterprises: seq<EnterpriseId>, a: AttemptId) {
    if a in db.attempts then
      a in now.attempts && now.attempts[a] == if AttemptCloses(db, enterprises, a) then ClosedAttempt(db, a) else db.attempts[a]
    else a !in now.attempts
  }

  /** `now` is `db` after the recovery of exactly these enterprises. */
  ghost predicate ClosedFor(db: Db, now: Db, enterprises: seq<EnterpriseId>) {
    (forall t :: TaskClosed(db, now, enterprises, t)) && forall a :: AttemptClosed(db, now, enterprises, a)
  }

  predicate TaskListed(db: Db, now: Db, list: seq<TaskId>, t: TaskId) {
    if t in db.tasks then t in now.tasks && now.tasks[t] == TaskAfter(db, t in list, t) else t !in now.tasks
  }

  predicate AttemptListed(db: Db, now: Db, list: seq<TaskId>, a: AttemptId) {
    if a in db.attempts then
      && a in now.attempts
      && now.attempts[a] == if Interrupted(db, a) && db.attempts[a].task in list then ClosedAttempt(db, a) else db.attempts[a]
    else a !in now.attempts
  }

  /** `now` is `db` with exactly the listed tasks closed. */
  ghost predicate Listed(db: Db, now: Db, list: seq<TaskId>) {
    (forall t :: TaskListed(db, now, list, t)) && forall a :: AttemptListed(db, now, list, a)
  }

  lemma {:induction false} FinishAllClosesListed(db: Db, list: seq<TaskId>, enterprise: EnterpriseId)
    requires Linked(db) && Distinct(list) && forall t | t in list :: t in Unfinished(db, enterprise)
    ensures Listed(db, FinishAll(db, list, enterprise), list)
  {
    if list != [] {
      var front, t := list[..|list| - 1], list[|list| - 1];
      FinishAllClosesListed(db, front, enterprise);
      assert list == front + [t] && t !in front && t in Unfinished(db, enterprise) && LinkedRow(db, t);
      assert TaskListed(db, FinishAll(db, front, enterprise), front, t);
      ClosingOneMore(db, FinishAll(db, front, enterprise), front, enterprise, t);
    }
  }

  lemma ClosingOneMore(db: Db, now: Db, list: seq<TaskId>, enterprise: EnterpriseId, t: TaskId)
    requires LinkedRow(db, t) && t in Unfinished(db, enterprise) && t !in list && Listed(db, now, list) && t in now.tasks
    ensures Listed(db, FinishAttempt(now, enterprise, t, now.tasks[t].attempt, ClosedStatus(now.tasks[t].status)), list + [t])
  {
    var a := db.tasks[t].attempt;
    var next := FinishAttempt(now, enterprise, t, now.tasks[t].attempt, ClosedStatus(now.tasks[t].status));
    assert TaskListed(db, now, list, t) && AttemptListed(db, now, list, a);
    forall u ensures TaskListed(db, next, list + [t], u) { assert TaskListed(db, now, list, u); }
    forall b ensures AttemptListed(db, next, list + [t], b) { assert AttemptListed(db, now, list, b); }
  }

  lemma RecoveryOfOne(db: Db, enterprise: EnterpriseId, notify: seq<TaskId>)
    requires Linked(db) && Distinct(notify)
    requires forall t :: t in notify <==> t in Unfinished(ReleaseAll(db, enterprise), enterprise)
    ensures ClosedFor(db, FinishAll(ReleaseAll(db, enterprise), notify, enterprise), [enterprise])
  {
    ReleaseKeepsLinked(db, enterprise);
    FinishAllClosesListed(ReleaseAll(db, enterprise), notify, enterprise);
    ListedThenClosed(db, enterprise, notify, FinishAll(ReleaseAll(db, enterprise), notify, enterprise));
  }

  lemma ReleaseKeepsLinked(db: Db, enterprise: EnterpriseId)
    requires Linked(db)
    ensures Linked(ReleaseAll(db, enterprise))
  {
  }

  lemma ListedThenClosed(db: Db, enterprise: EnterpriseId, notify: seq<TaskId>, now: Db)
    requires Listed(ReleaseAll(db, enterprise), now, notify)
    requires forall t :: t in notify <==> t in Unfinished(ReleaseAll(db, enterprise), enterprise)
    ensures ClosedFor(db, now, [enterprise])
  {
    var released := ReleaseAll(db, enterprise);
    forall t ensures TaskClosed(db, now, [enterprise], t) {
      assert TaskListed(released, now, notify, t);
      assert t in notify <==> t in Unfinished(released, enterprise);
    }
    forall a ensures AttemptClosed(db, now, [enterprise], a) {
      assert AttemptListed(released, now, notify, a);
      if a in db.attempts { assert db.attempts[a].task in notify <==> db.attempts[a].task in Unfinished(released, enterprise); }
    }
  }

  predicate LinkedRow(db: Db, t: TaskId) {
    && t in db.tasks && db.tasks[t].attempt in db.attempts && db.attempts[db.tasks[t].attempt].task == t
    && Agree(db.tasks[t], db.attempts[db.tasks[t].attempt])
  }

  lemma ClosedKeepsLinked(db: Db, now: Db, enterprises: seq<EnterpriseId>)
    requires Linked(db) && ClosedFor(db, now, enterprises)
    ensures Linked(now)
  {
    forall a | a in now.attempts ensures now.attempts[a].task in now.tasks {
      assert AttemptClosed(db, now, enterprises, a);
      assert TaskClosed(db, now, enterprises, db.attempts[a].task);
    }
    forall t | t in now.tasks ensures LinkedRow(now, t) {
      assert TaskClosed(db, now, enterprises, t) && LinkedRow(db, t);
      assert AttemptClosed(db, now, enterprises, db.tasks[t].attempt);
    }
  }

  lemma OneMoreEnterprise(db: Db, mid: Db, now: Db, done: seq<EnterpriseId>, enterprise: EnterpriseId)
    requires enterprise !in done && ClosedFor(db, mid, done) && ClosedFor(mid, now, [enterprise])
    ensures ClosedFor(db, now, done + [enterprise])
  {
    forall t ensures TaskClosed(db, now, done + [enterprise], t) {
      assert TaskClosed(db, mid, done, t) && TaskClosed(mid, now, [enterprise], t);
    }
    forall a ensures AttemptClosed(db, now, done + [enterprise], a) {
      assert AttemptClosed(db, mid, done, a) && AttemptClosed(mid, now, [enterprise], a);
      if a in db.attempts { assert TaskClosed(db, mid, done, db.attempts[a].task); }
    }
  }

  lemma EverythingClosed(db: Db, now: Db, enterprises: seq<EnterpriseId>)
    requires (forall t | t in db.tasks :: db.tasks[t].enterprise in enterprises) && ClosedFor(db, now, enterprises)
    ensures now == CloseInterrupted(db)
  {
    forall t ensures t in now.tasks <==> t in db.tasks
      ensures t in db.tasks ==> now.tasks[t] == ClosedTask(db.tasks[t])
    {
      assert TaskClosed(db, now, enterprises, t);
    }
    forall a ensures a in now.attempts <==> a in db.attempts
      ensures a in db.attempts ==> now.attempts[a] == ClosedAttempt(db, a)
    {
      assert AttemptClosed(db, now, enterprises, a);
    }
    assert now.tasks == CloseInterrupted(db).tasks;
    assert now.attempts == CloseInterrupted(db).attempts;
  }
}
