/** Runs that show where two promises stop: each is reachable, and each is outside the condition of the theorem it limits. */
module LoginWitnesses {
  import opened Common
  import opened LoginStore
  import opened LoginService
  import opened LoginInvariants

  lemma Perform(trace: seq<Login>, steps: seq<Step>, step: Step) returns (trace': seq<Login>, steps': seq<Step>)
    requires IsRun(trace, steps) && Enabled(trace[|steps|], step)
    ensures IsRun(trace', steps')
    ensures trace'[|steps'|] == Apply(trace[|steps|], step)
  {
    var next := Apply(trace[|steps|], step);
    trace', steps' := trace + [next], steps + [step];
    assert IsStep(trace[|steps|], step, next);
    forall i | 0 <= i < |steps'| ensures IsStep(trace'[i], steps'[i], trace'[i + 1]) {
      if i < |steps| { assert IsStep(trace[i], steps[i], trace[i + 1]); }
    }
  }

  /** An idle process starts a runnable payload as soon as it is queued. */
  lemma StartsAtOnce(s: Login, p: Payload)
    requires s.accepting && s.pending == [] && s.runs == map[] && IsRunnable(s, p)
    ensures Drain(Push(s, p), 1) == Start(s.(past := s.past.(enqueued := s.past.enqueued + [p.attempt])), p)
  {
    var pushed := Push(s, p);
    var rest := pushed.(pending := pushed.pending[1..]);
    assert pushed.pending == [p] && rest.pending == [];
    assert rest == s.(past := s.past.(enqueued := s.past.enqueued + [p.attempt]));
    assert Drain(Start(rest, p), 1) == Start(rest, p);
  }

  predicate Running1(s: Login, e: EnterpriseId, t: TaskId, a: AttemptId, i: Identity) {
    && s.runs == map[t := Run(e, a, i, Authorizing, false)] && s.pending == []
    && IsCurrent(s.db, e, t, a) && s.db.tasks[t].status == Running
  }

  /** The only run fails and its failure reaches the tables; it still holds its slot. */
  lemma Fails(trace: seq<Login>, steps: seq<Step>, e: EnterpriseId, t: TaskId, a: AttemptId, i: Identity)
    returns (trace': seq<Login>, steps': seq<Step>)
    requires IsRun(trace, steps) && Running1(trace[|steps|], e, t, a, i)
    ensures IsRun(trace', steps')
    ensures var s := trace[|steps|];
      trace'[|steps'|] == s.(db := FinishAttempt(s.db, e, t, a, Failed), runs := map[t := Run(e, a, i, Threw, false)])
  {
    trace', steps' := Perform(trace, steps, DoLoginThrew(t));
  }

  /** A run that threw reports and frees its slot. */
  lemma Settles(trace: seq<Login>, steps: seq<Step>, e: EnterpriseId, t: TaskId, a: AttemptId, i: Identity)
    returns (trace': seq<Login>, steps': seq<Step>)
    requires IsRun(trace, steps) && trace[|steps|].runs == map[t := Run(e, a, i, Threw, false)] && trace[|steps|].pending == []
    requires var db := trace[|steps|].db; IsCurrent(db, e, t, a) ==> !Active(db.tasks[t].status)
    ensures IsRun(trace', steps')
    ensures trace'[|steps'|] == trace[|steps|].(runs := map[], sent := trace[|steps|].sent + {FailRequest(e, i, a)})
  {
    trace', steps' := Perform(trace, steps, DoCaught(t));
    assert trace'[|steps'|].runs == map[t := Run(e, a, i, Reporting, false)];
    trace', steps' := Perform(trace', steps', DoReported(t));
    assert trace'[|steps'|].runs == map[t := Run(e, a, i, Settling, false)];
    trace', steps' := Perform(trace', steps', DoSettled(t, 0));
  }

  /** A submission to an idle process. */
  lemma Submits(trace: seq<Login>, steps: seq<Step>, e: EnterpriseId, m: Mapping, a: AttemptId, t: TaskId)
    returns (trace': seq<Login>, steps': seq<Step>)
    requires IsRun(trace, steps)
    requires var s := trace[|steps|];
      && s.accepting && s.pending == [] && s.runs == map[] && s.db == Db(map[], map[]) && s.cancelled == {} && t !in s.past.taskIds
    ensures IsRun(trace', steps') && Running1(trace'[|steps'|], e, t, a, m.identity)
    ensures var s, s' := trace[|steps|], trace'[|steps'|];
      && s'.db == Db(map[t := Task(e, m, a, Running, 1, Queued, None)], map[a := Attempt(t, 1, Running, Queued, true)])
      && s'.past.started == s.past.started + [a]
      && s'.past.taskIds == s.past.taskIds + {t} && s'.past.attemptIds == s.past.attemptIds + {a}
      && s'.accepting && s'.cancelled == {} && s'.cancellers == s.cancellers && s'.preparing == s.preparing && s'.inquiries == s.inquiries
  {
    var s := trace[|steps|];
    var registered := Register(s, e, m, a, t);
    var p := Payload(e, t, a, m.identity);
    assert IsRunnable(registered, p);
    StartsAtOnce(registered, p);
    trace', steps' := Perform(trace, steps, DoEnqueue(e, m, a, t, 1));
  }

  /** An attempt submitted again after its task was deleted is a new task, and the runner gets the same attempt twice. */
  lemma RecycledAttemptRunsTwice(e: EnterpriseId, m: Mapping, a: AttemptId, t: TaskId, u: TaskId)
    returns (trace: seq<Login>, steps: seq<Step>)
    requires t != u
    ensures IsRun(trace, steps) && trace[|steps|].past.started == [a, a]
  {
    var s0 := Login(Db(map[], map[]), [], map[], {}, map[], true, {}, map[], {}, History({}, {}, {}, {}, [], []));
    trace, steps := Submits([s0], [], e, m, a, t);
    trace, steps := Fails(trace, steps, e, t, a, m.identity);
    trace, steps := Settles(trace, steps, e, t, a, m.identity);
    trace, steps := Deletes(trace, steps, e, t);
    trace, steps := Submits(trace, steps, e, m, a, u);
  }

  lemma Deletes(trace: seq<Login>, steps: seq<Step>, e: EnterpriseId, t: TaskId) returns (trace': seq<Login>, steps': seq<Step>)
    requires IsRun(trace, steps) && trace[|steps|].db.tasks.Keys == {t} && CanDelete(trace[|steps|].db, e, t)
    requires forall a | a in trace[|steps|].db.attempts :: trace[|steps|].db.attempts[a].task == t
    ensures IsRun(trace', steps') && trace'[|steps'|] == trace[|steps|].(db := Db(map[], map[]))
  {
    trace', steps' := Perform(trace, steps, DoDelete(e, t));
  }

  // ---------------------------------------------------------------- a retry that nothing will run

  predicate Only(s: Login, e: EnterpriseId, t: TaskId, a: AttemptId, status: TaskStatus) {
    && t in s.db.tasks && s.db.tasks == map[t := s.db.tasks[t]]
    && s.db.tasks[t].enterprise == e && s.db.tasks[t].attempt == a && s.db.tasks[t].status == status
    && s.db.tasks[t].stage != Deleting && s.db.tasks[t].stage != Queued
    && s.pending == [] && s.cancelled == {} && s.cancellers == map[] && s.accepting
  }

  /** A retry reads the idle task and reserves an attempt for it. */
  lemma Asks(trace: seq<Login>, steps: seq<Step>, e: EnterpriseId, t: TaskId) returns (trace': seq<Login>, steps': seq<Step>)
    requires IsRun(trace, steps) && Has(trace[|steps|].db, e, t) && trace[|steps|].runs == map[] && trace[|steps|].pending == []
    ensures IsRun(trace', steps')
    ensures var s := trace[|steps|];
      trace'[|steps'|] == s.(inquiries := s.inquiries + {Inquiry(e, t, s.db.tasks[t])})
  {
    trace', steps' := Perform(trace, steps, DoRetry(e, t));
  }

  lemma Reserves(trace: seq<Login>, steps: seq<Step>, q: Inquiry, a: AttemptId, b: AttemptId)
    returns (trace': seq<Login>, steps': seq<Step>)
    requires IsRun(trace, steps)
    requires var s := trace[|steps|];
      && Only(s, q.enterprise, q.task, a, Failed) && q in s.inquiries && q.snapshot.attempt == a && b !in s.past.attemptIds
      && s.preparing == map[]
    ensures IsRun(trace', steps')
    ensures var s, s' := trace[|steps|], trace'[|steps'|];
      && Only(s', q.enterprise, q.task, b, Pending) && s'.db.tasks[q.task].stage == Preparing && s'.db.tasks[q.task].mapping == s.db.tasks[q.task].mapping
      && s'.preparing == map[b := Preparation(q.enterprise, q.task, q.snapshot.mapping.identity)]
      && s'.runs == s.runs && s'.inquiries == s.inquiries && s'.past.attemptIds == s.past.attemptIds + {b}
  {
    assert CanReserve(trace[|steps|].db, q.enterprise, q.task, q.snapshot.mapping.identity, a);
    trace', steps' := Perform(trace, steps, DoReserve(q, b));
  }

  /** Proxy prepared the attempt of an idle task: it starts at once. */
  lemma Prepared(trace: seq<Login>, steps: seq<Step>, e: EnterpriseId, t: TaskId, b: AttemptId, i: Identity)
    returns (trace': seq<Login>, steps': seq<Step>)
    requires IsRun(trace, steps)
    requires var s := trace[|steps|];
      Only(s, e, t, b, Pending) && s.runs == map[] && s.preparing == map[b := Preparation(e, t, i)]
    ensures IsRun(trace', steps')
    ensures var s, s' := trace[|steps|], trace'[|steps'|];
      && Running1(s', e, t, b, i) && s'.db.tasks == map[t := s'.db.tasks[t]] && s'.db.tasks[t].mapping == s.db.tasks[t].mapping
      && s'.preparing == map[] && s'.inquiries == s.inquiries && s'.past.attemptIds == s.past.attemptIds
      && s'.cancelled == {} && s'.cancellers == map[] && s'.accepting
  {
    var s := trace[|steps|];
    var staged := s.(preparing := map[], db := SetStage(s.db, e, t, b, Queued));
    assert s.preparing - {b} == map[];
    StartsAtOnce(staged, Payload(e, t, b, i));
    trace', steps' := Perform(trace, steps, DoPrepareReturned(b, true, 1));
  }

  /** Proxy prepared an attempt while an earlier run of the task still holds its slot: the queue ignores it. */
  lemma PreparedInVain(trace: seq<Login>, steps: seq<Step>, e: EnterpriseId, t: TaskId, c: AttemptId, i: Identity)
    returns (trace': seq<Login>, steps': seq<Step>)
    requires IsRun(trace, steps)
    requires var s := trace[|steps|]; Only(s, e, t, c, Pending) && t in s.runs && s.preparing == map[c := Preparation(e, t, i)]
    ensures IsRun(trace', steps')
    ensures var s := trace[|steps|]; trace'[|steps'|] == s.(preparing := map[], past := s.past.(stranded := s.past.stranded + {(t, c)}))
  {
    assert trace[|steps|].preparing - {c} == map[];
    trace', steps' := Perform(trace, steps, DoPrepareReturned(c, true, 1));
  }

  /**
   * `retryTask` tests `isBusy` before it waits for the pool check and never again. A second retry that asked while the
   * first one was being prepared reserves its attempt although the failed run still holds the slot; the queue then drops
   * it, and the task stays pending with no queue entry, no run, no preparation and no canceller.
   */
  lemma RetryCanStrandATask(e: EnterpriseId, m: Mapping, t: TaskId, a: AttemptId, b: AttemptId, c: AttemptId)
    returns (trace: seq<Login>, steps: seq<Step>)
    requires a != b && b != c && a != c
    ensures IsRun(trace, steps)
    ensures var s := trace[|steps|];
      && Only(s, e, t, c, Pending) && s.runs == map[] && s.pending == [] && s.preparing == map[] && s.cancellers == map[]
  {
    var i := m.identity;
    trace, steps := AsksTwice(e, m, t, a, b);
    trace, steps := Prepared(trace, steps, e, t, b, i);
    trace, steps := Fails(trace, steps, e, t, b, i);
    trace, steps := Reserves(trace, steps, Inquiry(e, t, Task(e, m, b, Pending, 1, Preparing, None)), b, c);
    trace, steps := PreparedInVain(trace, steps, e, t, c, i);
    trace, steps := Settles(trace, steps, e, t, b, i);
  }

  lemma AsksTwice(e: EnterpriseId, m: Mapping, t: TaskId, a: AttemptId, b: AttemptId) returns (trace: seq<Login>, steps: seq<Step>)
    requires a != b
    ensures IsRun(trace, steps)
    ensures var s := trace[|steps|];
      && Only(s, e, t, b, Pending) && s.runs == map[] && s.preparing == map[b := Preparation(e, t, m.identity)]
      && s.db.tasks[t].mapping == m && s.past.attemptIds == {a, b}
      && Inquiry(e, t, Task(e, m, b, Pending, 1, Preparing, None)) in s.inquiries
  {
    var s0 := Login(Db(map[], map[]), [], map[], {}, map[], true, {}, map[], {}, History({}, {}, {}, {}, [], []));
    trace, steps := Submits([s0], [], e, m, a, t);
    trace, steps := Fails(trace, steps, e, t, a, m.identity);
    trace, steps := Settles(trace, steps, e, t, a, m.identity);
    trace, steps := AsksAndReserves(trace, steps, e, m, t, a, b);
    trace, steps := Asks(trace, steps, e, t);
  }

  lemma AsksAndReserves(trace: seq<Login>, steps: seq<Step>, e: EnterpriseId, m: Mapping, t: TaskId, a: AttemptId, b: AttemptId)
    returns (trace': seq<Login>, steps': seq<Step>)
    requires IsRun(trace, steps) && a != b
    requires var s := trace[|steps|];
      && Only(s, e, t, a, Failed) && s.db.tasks[t] == Task(e, m, a, Failed, 1, Ended(Failed), None)
      && s.runs == map[] && s.preparing == map[] && s.past.attemptIds == {a}
    ensures IsRun(trace', steps')
    ensures var s' := trace'[|steps'|];
      && Only(s', e, t, b, Pending) && s'.db.tasks[t] == Task(e, m, b, Pending, 1, Preparing, None)
      && s'.runs == map[] && s'.preparing == map[b := Preparation(e, t, m.identity)] && s'.past.attemptIds == {a, b}
  {
    var q := Inquiry(e, t, trace[|steps|].db.tasks[t]);
    trace', steps' := Asks(trace, steps, e, t);
    assert CanReserve(trace'[|steps'|].db, e, t, m.identity, a);
    trace', steps' := Perform(trace', steps', DoReserve(q, b));
  }
}
