/**
 * The Login process: its tables, the in-memory queue, and every suspended continuation of the queue, the runner, the
 * cancellation finisher and the retry handler. JavaScript runs each piece between two awaits without interruption, so one
 * piece is one step; the pieces of different calls interleave freely.
 */
module LoginService {
  import opened Common
  import opened LoginStore

  datatype Payload = Payload(enterprise: EnterpriseId, task: TaskId, attempt: AttemptId, identity: Identity)

  /** Where a started run is: before the token write, waiting for it, thrown, reporting the failure, or about to free its slot. */
  datatype Phase = Authorizing | Saving | Threw | Reporting | Settling

  datatype Run = Run(enterprise: EnterpriseId, attempt: AttemptId, identity: Identity, phase: Phase, aborted: bool)

  /** `finishCancellation` of a task: it waits for the run whose completion it captured, if there was one. */
  datatype Canceller = Canceller(
    enterprise: EnterpriseId, attempt: AttemptId, identity: Identity, awaiting: Option<AttemptId>, reported: bool)

  /** A retry that read the task and waits for the pool check. */
  datatype Inquiry = Inquiry(enterprise: EnterpriseId, task: TaskId, snapshot: Task)

  /** A retry that reserved its attempt and waits for Proxy. */
  datatype Preparation = Preparation(enterprise: EnterpriseId, task: TaskId, identity: Identity)

  datatype Request =
    | SaveRequest(enterprise: EnterpriseId, identity: Identity, attempt: AttemptId, token: Token)
    | FailRequest(enterprise: EnterpriseId, identity: Identity, attempt: AttemptId)
    | PrepareRequest(enterprise: EnterpriseId, attempt: AttemptId, previous: AttemptId, mapping: Mapping)

  /**
   * What happened since the database was created: ids drawn, attempts put into the queue and handed to the runner (both
   * oldest first), attempts whose token write Proxy confirmed. `stranded` are the prepared retries the queue dropped
   * because an earlier run of the task still held its slot.
   */
  datatype History = History(
    taskIds: set<TaskId>, attemptIds: set<AttemptId>, stranded: set<(TaskId, AttemptId)>,
    confirmed: set<(Identity, AttemptId)>, enqueued: seq<AttemptId>, started: seq<AttemptId>)

  /** `runs` is the `active` set together with its controllers and completions; `cancellers` is the `cancelling` set. */
  datatype Login = Login(
    db: Db, pending: seq<Payload>, runs: map<TaskId, Run>, cancelled: set<(TaskId, AttemptId)>,
    cancellers: map<TaskId, Canceller>, accepting: bool,
    inquiries: set<Inquiry>, preparing: map<AttemptId, Preparation>, sent: set<Request>, past: History)

  // ---------------------------------------------------------------- queue

  predicate InQueue(pending: seq<Payload>, task: TaskId) {
    pending != [] && (pending[0].task == task || InQueue(pending[1..], task))
  }

  predicate IsBusy(s: Login, task: TaskId) {
    task in s.runs || InQueue(s.pending, task)
  }

  function RemoveTask(pending: seq<Payload>, task: TaskId): seq<Payload> {
    if pending == [] then []
    else if pending[0].task == task then pending[1..]
    else [pending[0]] + RemoveTask(pending[1..], task)
  }

  function Push(s: Login, p: Payload): Login {
    s.(pending := s.pending + [p], past := s.past.(enqueued := s.past.enqueued + [p.attempt]))
  }

  predicate IsRunnable(s: Login, p: Payload) {
    (p.task, p.attempt) !in s.cancelled && CanMarkRunning(s.db, p.enterprise, p.task, p.attempt)
  }

  /** The runner marks the task running before its first await. */
  function Start(s: Login, p: Payload): Login {
    var phase := if CanMarkRunning(s.db, p.enterprise, p.task, p.attempt) then Authorizing else Settling;
    s.(db := MarkRunning(s.db, p.enterprise, p.task, p.attempt),
       runs := s.runs[p.task := Run(p.enterprise, p.attempt, p.identity, phase, false)],
       past := s.past.(started := s.past.started + [p.attempt]))
  }

  function Drain(s: Login, limit: nat): Login
    decreases |s.pending|
  {
    if !s.accepting || |s.runs| >= limit || s.pending == [] then s
    else
      var p := s.pending[0];
      var rest := s.(pending := s.pending[1..]);
      if IsRunnable(rest, p) then Drain(Start(rest, p), limit) else Drain(rest, limit)
  }

  function Enqueue(s: Login, enterprise: EnterpriseId, mapping: Mapping, attempt: AttemptId, id: TaskId, limit: nat): Login {
    match CreateVerdict(s.db, enterprise, mapping, attempt, id)
    case Created(_) => Submit(s, enterprise, mapping, attempt, id, limit)
    case Existing(task) =>
      var row := s.db.attempts[attempt];
      if IsBusy(s, task) || row.status != Pending || row.stage != Queued then s
      else Drain(Push(s, Payload(enterprise, task, attempt, mapping.identity)), limit)
    case _ => s
  }

  function Register(s: Login, enterprise: EnterpriseId, mapping: Mapping, attempt: AttemptId, id: TaskId): Login {
    s.(db := InsertTask(s.db, enterprise, mapping, attempt, id),
       past := s.past.(taskIds := s.past.taskIds + {id}, attemptIds := s.past.attemptIds + {attempt}))
  }

  function Submit(s: Login, enterprise: EnterpriseId, mapping: Mapping, attempt: AttemptId, id: TaskId, limit: nat): Login {
    var t := Register(s, enterprise, mapping, attempt, id);
    if IsBusy(s, id) then t else Drain(Push(t, Payload(enterprise, id, attempt, mapping.identity)), limit)
  }

  // ---------------------------------------------------------------- cancellation

  function Abort(runs: map<TaskId, Run>, task: TaskId): map<TaskId, Run> {
    if task in runs then runs[task := runs[task].(aborted := true)] else runs
  }

  function Cancel(s: Login, enterprise: EnterpriseId, id: TaskId): Login {
    if !Has(s.db, enterprise, id) || !Active(s.db.tasks[id].status) then s
    else
      var task := s.db.tasks[id];
      var awaiting := if id in s.runs then Some(s.runs[id].attempt) else None;
      s.(db := RequestCancellation(s.db, enterprise, id),
         cancelled := s.cancelled + {(id, task.attempt)},
         pending := RemoveTask(s.pending, id),
         runs := Abort(s.runs, id),
         cancellers := if id in s.cancellers then s.cancellers
                       else s.cancellers[id := Canceller(enterprise, task.attempt, task.mapping.identity, awaiting, false)])
  }

  predicate AwaitedRunSettled(s: Login, id: TaskId)
    requires id in s.cancellers
  {
    s.cancellers[id].awaiting.Some? ==> !(id in s.runs && s.runs[id].attempt == s.cancellers[id].awaiting.value)
  }

  function FinishCancellation(s: Login, id: TaskId): Login
    requires id in s.cancellers
  {
    var c := s.cancellers[id];
    var closed := s.(cancellers := s.cancellers[id := c.(reported := true)]);
    if !IsCurrent(s.db, c.enterprise, id, c.attempt) || s.db.tasks[id].status != Cancelling then closed
    else closed.(db := FinishAttempt(s.db, c.enterprise, id, c.attempt, Cancelled),
                 sent := s.sent + {FailRequest(c.enterprise, c.identity, c.attempt)})
  }

  function CloseCancellation(s: Login, id: TaskId): Login
    requires id in s.cancellers
  {
    s.(cancelled := s.cancelled - {(id, s.cancellers[id].attempt)}, cancellers := s.cancellers - {id})
  }

  // ---------------------------------------------------------------- the runner and the slot it holds

  function InPhase(s: Login, id: TaskId, phase: Phase): Login
    requires id in s.runs
  {
    s.(runs := s.runs[id := s.runs[id].(phase := phase)])
  }

  function StageReported(s: Login, id: TaskId, stage: Stage): Login
    requires id in s.runs
  {
    s.(db := SetStage(s.db, s.runs[id].enterprise, id, s.runs[id].attempt, stage))
  }

  function TokenObtained(s: Login, id: TaskId, token: Token): Login
    requires id in s.runs
  {
    var run := s.runs[id];
    InPhase(StageReported(s, id, Reported("saving-token")), id, Saving)
      .(sent := s.sent + {SaveRequest(run.enterprise, run.identity, run.attempt, token)})
  }

  /** The runner's catch clause: an aborted run leaves the task to the queue. */
  function RunThrew(s: Login, id: TaskId): Login
    requires id in s.runs
  {
    var run := s.runs[id];
    var thrown := InPhase(s, id, Threw);
    if run.aborted then thrown else thrown.(db := FinishAttempt(s.db, run.enterprise, id, run.attempt, Failed))
  }

  function TokenSaved(s: Login, id: TaskId): Login
    requires id in s.runs
  {
    var run := s.runs[id];
    InPhase(s, id, Settling).(
      db := FinishAttempt(s.db, run.enterprise, id, run.attempt, Success),
      past := s.past.(confirmed := s.past.confirmed + {(run.identity, run.attempt)}))
  }

  /** The queue's catch handler and `failRun`. */
  function RunCaught(s: Login, id: TaskId): Login
    requires id in s.runs
  {
    var run := s.runs[id];
    if run.aborted then InPhase(s, id, Settling)
    else InPhase(s, id, Reporting).(
      db := FinishAttempt(s.db, run.enterprise, id, run.attempt, Failed),
      sent := s.sent + {FailRequest(run.enterprise, run.identity, run.attempt)})
  }

  function SlotFreed(s: Login, id: TaskId, limit: nat): Login {
    Drain(s.(runs := s.runs - {id}), limit)
  }

  // ---------------------------------------------------------------- retry

  ghost function ReserveRetry(s: Login, q: Inquiry, attempt: AttemptId): Login {
    var identity := q.snapshot.mapping.identity;
    if !CanReserve(s.db, q.enterprise, q.task, identity, q.snapshot.attempt) then s
    else
      s.(db := Reserve(s.db, q.task, attempt),
         preparing := s.preparing[attempt := Preparation(q.enterprise, q.task, identity)],
         sent := s.sent + {PrepareRequest(q.enterprise, attempt, q.snapshot.attempt, q.snapshot.mapping)},
         past := s.past.(attemptIds := s.past.attemptIds + {attempt}))
  }

  function QueueRetry(s: Login, attempt: AttemptId, p: Preparation, limit: nat): Login {
    if IsBusy(s, p.task) then s.(past := s.past.(stranded := s.past.stranded + {(p.task, attempt)}))
    else Drain(Push(s.(db := SetStage(s.db, p.enterprise, p.task, attempt, Queued)),
                    Payload(p.enterprise, p.task, attempt, p.identity)), limit)
  }

  function PrepareReturned(s: Login, attempt: AttemptId, ok: bool, limit: nat): Login
    requires attempt in s.preparing
  {
    var p := s.preparing[attempt];
    var t := s.(preparing := s.preparing - {attempt});
    var released := t.(sent := t.sent + {FailRequest(p.enterprise, p.identity, attempt)});
    if Has(s.db, p.enterprise, p.task) && s.db.tasks[p.task].status == Cancelling then Cancel(t, p.enterprise, p.task)
    else if ok then
      if CanMarkRunning(s.db, p.enterprise, p.task, attempt) then QueueRetry(t, attempt, p, limit) else released
    else if Has(s.db, p.enterprise, p.task) && s.db.tasks[p.task].status == Cancelled then t
    else released.(db := FinishAttempt(s.db, p.enterprise, p.task, attempt, Failed))
  }

  // ---------------------------------------------------------------- restart

  function InterruptedReports(db: Db): set<Request> {
    set t | t in db.tasks && Active(db.tasks[t].status) ::
      FailRequest(db.tasks[t].enterprise, db.tasks[t].mapping.identity, db.tasks[t].attempt)
  }

  /** The process died and came back: only the tables and the messages already sent survive. */
  function Restarted(s: Login): Login {
    Login(CloseInterrupted(s.db), [], map[], {}, map[], true, {}, map[], s.sent + InterruptedReports(s.db), s.past)
  }

  // ---------------------------------------------------------------- steps

  datatype Step =
    | DoEnqueue(enterprise: EnterpriseId, mapping: Mapping, attempt: AttemptId, id: TaskId, limit: nat)
    | DoCancel(enterprise: EnterpriseId, id: TaskId)
    | DoFinishCancellation(id: TaskId)
    | DoCloseCancellation(id: TaskId)
    | DoStage(id: TaskId, stage: Stage)
    | DoTokenObtained(id: TaskId, token: Token)
    | DoLoginThrew(id: TaskId)
    | DoTokenSaved(id: TaskId)
    | DoSaveThrew(id: TaskId)
    | DoCaught(id: TaskId)
    | DoReported(id: TaskId)
    | DoSettled(id: TaskId, limit: nat)
    | DoSettingsUpdated(limit: nat)
    | DoStopAccepting
    | DoRetry(enterprise: EnterpriseId, id: TaskId)
    | DoReserve(inquiry: Inquiry, attempt: AttemptId)
    | DoPrepareReturned(attempt: AttemptId, ok: bool, limit: nat)
    | DoClaimDeletion(enterprise: EnterpriseId, id: TaskId)
    | DoDelete(enterprise: EnterpriseId, id: TaskId)
    | DoReleaseDeletion(enterprise: EnterpriseId, id: TaskId)
    | DoRestart

  predicate RunIn(s: Login, id: TaskId, phase: Phase) {
    id in s.runs && s.runs[id].phase == phase
  }

  /** Steps of a run while it holds its slot. */
  predicate IsRunStep(step: Step) {
    step.DoStage? || step.DoTokenObtained? || step.DoLoginThrew? || step.DoTokenSaved? || step.DoSaveThrew? || step.DoCaught?
    || step.DoReported?
  }

  /** Steps that put attempts into the queue or take them out, or reserve one. */
  predicate IsQueueStep(step: Step) {
    step.DoEnqueue? || step.DoSettled? || step.DoSettingsUpdated? || step.DoReserve? || step.DoPrepareReturned?
  }

  ghost predicate Enabled(s: Login, step: Step) {
    match step
    case DoEnqueue(_, _, _, id, _) => id !in s.past.taskIds
    case DoFinishCancellation(id) => id in s.cancellers && !s.cancellers[id].reported && AwaitedRunSettled(s, id)
    case DoCloseCancellation(id) => id in s.cancellers && s.cancellers[id].reported
    case DoStage(id, stage) => RunIn(s, id, Authorizing) && stage.Reported?
    case DoTokenObtained(id, _) => RunIn(s, id, Authorizing) && !s.runs[id].aborted
    case DoLoginThrew(id) => RunIn(s, id, Authorizing)
    case DoTokenSaved(id) => RunIn(s, id, Saving)
    case DoSaveThrew(id) => RunIn(s, id, Saving)
    case DoCaught(id) => RunIn(s, id, Threw)
    case DoReported(id) => RunIn(s, id, Reporting)
    case DoSettled(id, _) => RunIn(s, id, Settling)
    case DoRetry(enterprise, id) => Has(s.db, enterprise, id) && !IsBusy(s, id)
    case DoReserve(q, attempt) => q in s.inquiries && attempt !in s.past.attemptIds
    case DoPrepareReturned(attempt, _, _) => attempt in s.preparing
    case _ => true
  }

  ghost function Apply(s: Login, step: Step): Login
    requires Enabled(s, step)
  {
    match step
    case DoEnqueue(enterprise, mapping, attempt, id, limit) => Enqueue(s, enterprise, mapping, attempt, id, limit)
    case DoCancel(enterprise, id) => Cancel(s, enterprise, id)
    case DoFinishCancellation(id) => FinishCancellation(s, id)
    case DoCloseCancellation(id) => CloseCancellation(s, id)
    case DoStage(id, stage) => StageReported(s, id, stage)
    case DoTokenObtained(id, token) => TokenObtained(s, id, token)
    case DoLoginThrew(id) => RunThrew(s, id)
    case DoTokenSaved(id) => TokenSaved(s, id)
    case DoSaveThrew(id) => RunThrew(s, id)
    case DoCaught(id) => RunCaught(s, id)
    case DoReported(id) => InPhase(s, id, Settling)
    case DoSettled(id, limit) => SlotFreed(s, id, limit)
    case DoSettingsUpdated(limit) => Drain(s, limit)
    case DoStopAccepting => s.(accepting := false)
    case DoRetry(enterprise, id) => s.(inquiries := s.inquiries + {Inquiry(enterprise, id, s.db.tasks[id])})
    case DoReserve(q, attempt) => ReserveRetry(s, q, attempt)
    case DoPrepareReturned(attempt, ok, limit) => PrepareReturned(s, attempt, ok, limit)
    case DoClaimDeletion(enterprise, id) => s.(db := ClaimTaskDeletion(s.db, enterprise, id))
    case DoDelete(enterprise, id) => s.(db := DeleteTask(s.db, enterprise, id))
    case DoReleaseDeletion(enterprise, id) => s.(db := ReleaseTaskDeletion(s.db, enterprise, id))
    case DoRestart => Restarted(s)
  }

  ghost predicate Init(s: Login) {
    s == Login(Db(map[], map[]), [], map[], {}, map[], true, {}, map[], {}, History({}, {}, {}, {}, [], []))
  }

  ghost predicate IsStep(s: Login, step: Step, t: Login) {
    Enabled(s, step) && t == Apply(s, step)
  }

  ghost predicate IsRun(trace: seq<Login>, steps: seq<Step>) {
    && |trace| == |steps| + 1
    && Init(trace[0])
    && forall i | 0 <= i < |steps| :: IsStep(trace[i], steps[i], trace[i + 1])
  }
}
