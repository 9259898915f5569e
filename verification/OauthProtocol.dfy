/**
 * Login and Proxy together. Requests Login ever sent stay deliverable, so a message may be delayed, lost or delivered any
 * number of times; answers Proxy ever gave may likewise be lost or arrive late. Either side may restart at any moment.
 */
module OauthProtocol {
  import opened Common
  import S = LoginStore
  import L = LoginService
  import LI = LoginInvariants
  import LT = LoginTheorems
  import LO = LoginOutcomes
  import P = ProxyAccounts

  datatype Answer = SaveAccepted(identity: Identity, attempt: AttemptId) | PrepareAccepted(attempt: AttemptId)

  datatype System = System(login: L.Login, proxy: P.Proxy, answers: set<Answer>)

  datatype Step = AtLogin(login: L.Step) | AtProxy(proxy: P.Step)

  ghost predicate Init(s: System) {
    L.Init(s.login) && P.Init(s.proxy) && s.answers == {}
  }

  /** Login learns of a success only from an answer, and draws ids nobody drew before. */
  ghost predicate LoginMay(s: System, step: L.Step) {
    && L.Enabled(s.login, step)
    && match step
       case DoTokenSaved(id) => SaveAccepted(s.login.runs[id].identity, s.login.runs[id].attempt) in s.answers
       case DoReserve(q, attempt) => attempt !in s.proxy.issued
       case DoPrepareReturned(attempt, ok, _) => ok ==> PrepareAccepted(attempt) in s.answers
       case _ => true
  }

  /** The handlers of Proxy run on requests Login sent; a forced authorization draws a fresh id. */
  ghost predicate ProxyMay(s: System, step: P.Step) {
    && P.Enabled(s.proxy, step)
    && match step
       case PrepareCheck(call) =>
         exists r | r in s.login.sent && r.PrepareRequest? ::
           && call.enterprise == r.enterprise && call.identity == r.mapping.identity && call.attempt == r.attempt
           && call.previous == Some(r.previous) && call.ssoUser == r.mapping.ssoUser && call.ghLogin == r.mapping.ghLogin
       case SaveCheck(call) => L.SaveRequest(call.enterprise, call.identity, call.attempt, call.token) in s.login.sent
       case ForceBegin(_, attempt) => attempt !in s.login.past.attemptIds
       case IssueRetry(_, _, _) => false
       case _ => true
  }

  ghost predicate Enabled(s: System, step: Step) {
    match step
    case AtLogin(l) => LoginMay(s, l)
    case AtProxy(p) => ProxyMay(s, p)
  }

  /** A reservation publishes the id it drew, together with the attempt it means to replace. */
  ghost function Published(proxy: P.Proxy, step: L.Step): P.Proxy
    requires step.DoReserve? ==> step.attempt !in proxy.issued
  {
    if step.DoReserve?
    then P.Apply(proxy, P.IssueRetry(step.inquiry.snapshot.mapping.identity, step.attempt, Some(step.inquiry.snapshot.attempt)))
    else proxy
  }

  /** What Proxy answers: a success only when its compare-and-set changed the row. */
  ghost function AnswersOf(s: System, step: P.Step): set<Answer> {
    match step
    case SaveCommit(call) => if P.CanSave(s.proxy.rows, call.identity, call.attempt) then {SaveAccepted(call.identity, call.attempt)} else {}
    case PrepareCommit(call) =>
      if P.CanBegin(s.proxy.rows, call.identity, P.Expect(call.previous)) then {PrepareAccepted(call.attempt)} else {}
    case _ => {}
  }

  ghost function Apply(s: System, step: Step): System
    requires Enabled(s, step)
  {
    match step
    case AtLogin(l) => System(L.Apply(s.login, l), Published(s.proxy, l), s.answers)
    case AtProxy(p) => System(s.login, P.Apply(s.proxy, p), s.answers + AnswersOf(s, p))
  }

  ghost predicate IsRun(trace: seq<System>, steps: seq<Step>) {
    && |trace| == |steps| + 1
    && Init(trace[0])
    && forall i | 0 <= i < |steps| :: Enabled(trace[i], steps[i]) && trace[i + 1] == Apply(trace[i], steps[i])
  }

  // ---------------------------------------------------------------- agreement

  ghost predicate WasSaved(log: seq<P.Event>, identity: Identity, attempt: AttemptId) {
    exists k | 0 <= k < |log| :: log[k].Saved? && log[k].identity == identity && log[k].attempt == attempt
  }

  ghost predicate SavedWasSent(proxy: P.Proxy, sent: set<L.Request>) {
    && (forall k | 0 <= k < |proxy.log| && proxy.log[k].Saved? ::
          exists e :: L.SaveRequest(e, proxy.log[k].identity, proxy.log[k].attempt, proxy.log[k].token) in sent)
    && (forall call | call in proxy.saving :: L.SaveRequest(call.enterprise, call.identity, call.attempt, call.token) in sent)
  }

  /** Login always names the attempt a retry replaces, so the unfenced case of Proxy never arises here. */
  ghost predicate RetriesAreNamed(proxy: P.Proxy) {
    !proxy.unfencedReplay && P.RetriesNamePrevious(proxy)
  }

  ghost predicate Agreement(s: System) {
    && (forall i, a | SaveAccepted(i, a) in s.answers :: WasSaved(s.proxy.log, i, a))
    && (forall key | key in s.login.past.confirmed :: WasSaved(s.proxy.log, key.0, key.1))
    && SavedWasSent(s.proxy, s.login.sent)
    && RetriesAreNamed(s.proxy)
  }

  ghost predicate Inv(s: System) {
    LI.LoginInv(s.login) && P.Inv(s.proxy) && Agreement(s)
  }

  // ---------------------------------------------------------------- Login steps

  lemma {:induction false} DrainIsSilent(s: L.Login, limit: nat)
    ensures L.Drain(s, limit).sent == s.sent && L.Drain(s, limit).past.confirmed == s.past.confirmed
    decreases |s.pending|
  {
    if s.accepting && |s.runs| < limit && s.pending != [] {
      var p := s.pending[0];
      var rest := s.(pending := s.pending[1..]);
      if L.IsRunnable(rest, p) { DrainIsSilent(L.Start(rest, p), limit); } else { DrainIsSilent(rest, limit); }
    }
  }

  lemma EnqueueIsSilent(s: L.Login, e: EnterpriseId, m: S.Mapping, a: AttemptId, id: TaskId, limit: nat)
    ensures var t := L.Enqueue(s, e, m, a, id, limit); t.sent == s.sent && t.past.confirmed == s.past.confirmed
  {
    DrainIsSilent(L.Push(L.Register(s, e, m, a, id), L.Payload(e, id, a, m.identity)), limit);
    match S.CreateVerdict(s.db, e, m, a, id)
    case Existing(task) => DrainIsSilent(L.Push(s, L.Payload(e, task, a, m.identity)), limit);
    case _ =>
  }

  lemma PrepareReturnedOnlySends(s: L.Login, attempt: AttemptId, ok: bool, limit: nat)
    requires attempt in s.preparing
    ensures var t := L.PrepareReturned(s, attempt, ok, limit); s.sent <= t.sent && t.past.confirmed == s.past.confirmed
  {
    var p := s.preparing[attempt];
    var staged := s.(preparing := s.preparing - {attempt}, db := S.SetStage(s.db, p.enterprise, p.task, attempt, S.Queued));
    DrainIsSilent(L.Push(staged, L.Payload(p.enterprise, p.task, attempt, p.identity)), limit);
  }

  /** A step of Login never unsends a request, and confirms an attempt only in `DoTokenSaved`. */
  lemma LoginStepEffects(s: L.Login, step: L.Step)
    requires L.Enabled(s, step)
    ensures s.sent <= L.Apply(s, step).sent
    ensures L.Apply(s, step).past.confirmed ==
            s.past.confirmed + (if step.DoTokenSaved? then {(s.runs[step.id].identity, s.runs[step.id].attempt)} else {})
  {
    if L.IsRunStep(step) { RunStepEffects(s, step); }
    else if L.IsQueueStep(step) { QueueStepEffects(s, step); }
  }

  lemma RunStepEffects(s: L.Login, step: L.Step)
    requires L.Enabled(s, step) && L.IsRunStep(step)
    ensures s.sent <= L.Apply(s, step).sent
    ensures L.Apply(s, step).past.confirmed ==
            s.past.confirmed + (if step.DoTokenSaved? then {(s.runs[step.id].identity, s.runs[step.id].attempt)} else {})
  {
  }

  lemma QueueStepEffects(s: L.Login, step: L.Step)
    requires L.Enabled(s, step) && L.IsQueueStep(step)
    ensures s.sent <= L.Apply(s, step).sent && L.Apply(s, step).past.confirmed == s.past.confirmed
  {
    match step
    case DoEnqueue(e, m, a, id, limit) => EnqueueIsSilent(s, e, m, a, id, limit);
    case DoSettled(id, limit) => DrainIsSilent(s.(runs := s.runs - {id}), limit);
    case DoSettingsUpdated(limit) => DrainIsSilent(s, limit);
    case DoPrepareReturned(attempt, ok, limit) => PrepareReturnedOnlySends(s, attempt, ok, limit);
    case DoReserve(_, _) =>
  }

  lemma LoginStepKeepsAgreement(s: System, l: L.Step)
    requires Agreement(s) && LoginMay(s, l)
    ensures Agreement(Apply(s, AtLogin(l)))
  {
    LoginStepEffects(s.login, l);
    var s' := Apply(s, AtLogin(l));
    assert s'.proxy.log == s.proxy.log && s'.proxy.saving == s.proxy.saving;
    forall k | 0 <= k < |s'.proxy.log| && s'.proxy.log[k].Saved?
      ensures exists e :: L.SaveRequest(e, s'.proxy.log[k].identity, s'.proxy.log[k].attempt, s'.proxy.log[k].token) in s'.login.sent
    {
      var e :| L.SaveRequest(e, s.proxy.log[k].identity, s.proxy.log[k].attempt, s.proxy.log[k].token) in s.login.sent;
      assert L.SaveRequest(e, s'.proxy.log[k].identity, s'.proxy.log[k].attempt, s'.proxy.log[k].token) in s'.login.sent;
    }
  }

  lemma LoginStepKeepsProxy(s: System, l: L.Step)
    requires P.Inv(s.proxy) && LoginMay(s, l)
    ensures P.Inv(Published(s.proxy, l))
  {
    if l.DoReserve? {
      P.StepKeepsInv(s.proxy, P.IssueRetry(l.inquiry.snapshot.mapping.identity, l.attempt, Some(l.inquiry.snapshot.attempt)));
    }
  }

  // ---------------------------------------------------------------- Proxy steps

  lemma SavedStays(log: seq<P.Event>, log': seq<P.Event>, identity: Identity, attempt: AttemptId)
    requires log <= log' && WasSaved(log, identity, attempt)
    ensures WasSaved(log', identity, attempt)
  {
    var k :| 0 <= k < |log| && log[k].Saved? && log[k].identity == identity && log[k].attempt == attempt;
    assert log'[k] == log[k];
  }

  /** A Proxy step appends at most one event, and `Saved` only in `SaveCommit`. */
  lemma ProxyStepEffects(s: P.Proxy, step: P.Step)
    requires P.Enabled(s, step)
    ensures var s' := P.Apply(s, step);
      && s.log <= s'.log && |s'.log| <= |s.log| + 1
      && (|s'.log| == |s.log| + 1 && s'.log[|s.log|].Saved? ==>
            step.SaveCommit? && s'.log[|s.log|] == P.Saved(step.save.identity, step.save.attempt, step.save.token))
      && (step.SaveCommit? && P.CanSave(s.rows, step.save.identity, step.save.attempt) ==> |s'.log| == |s.log| + 1 && s'.log[|s.log|].Saved?)
      && s'.saving <= s.saving + (if step.SaveCheck? then {step.save} else {})
  {
  }

  lemma ProxyStepKeepsNamed(s: P.Proxy, step: P.Step)
    requires RetriesAreNamed(s) && P.BeginsWereIssued(s) && P.Enabled(s, step) && !step.IssueRetry?
    ensures RetriesAreNamed(P.Apply(s, step))
  {
  }

  lemma ProxyStepKeepsSent(s: System, p: P.Step)
    requires SavedWasSent(s.proxy, s.login.sent) && ProxyMay(s, p)
    ensures SavedWasSent(P.Apply(s.proxy, p), s.login.sent)
  {
    ProxyStepEffects(s.proxy, p);
    var log, log' := s.proxy.log, P.Apply(s.proxy, p).log;
    forall k | 0 <= k < |log'| && log'[k].Saved?
      ensures exists e :: L.SaveRequest(e, log'[k].identity, log'[k].attempt, log'[k].token) in s.login.sent
    {
      if k < |log| {
        assert log'[k] == log[k];
      } else {
        assert L.SaveRequest(p.save.enterprise, log'[k].identity, log'[k].attempt, log'[k].token) in s.login.sent;
      }
    }
  }

  lemma ProxyStepKeepsAgreement(s: System, p: P.Step)
    requires Agreement(s) && P.BeginsWereIssued(s.proxy) && ProxyMay(s, p)
    ensures Agreement(Apply(s, AtProxy(p)))
  {
    ProxyStepEffects(s.proxy, p);
    ProxyStepKeepsNamed(s.proxy, p);
    ProxyStepKeepsSent(s, p);
    var s' := Apply(s, AtProxy(p));
    forall i, a | SaveAccepted(i, a) in s'.answers ensures WasSaved(s'.proxy.log, i, a) {
      if SaveAccepted(i, a) in s.answers {
        SavedStays(s.proxy.log, s'.proxy.log, i, a);
      } else {
        assert s'.proxy.log[|s.proxy.log|].Saved?;
      }
    }
    forall key | key in s'.login.past.confirmed ensures WasSaved(s'.proxy.log, key.0, key.1) {
      SavedStays(s.proxy.log, s'.proxy.log, key.0, key.1);
    }
  }

  // ---------------------------------------------------------------- runs

  lemma StepKeepsInv(s: System, step: Step)
    requires Inv(s) && Enabled(s, step)
    ensures Inv(Apply(s, step))
  {
    match step
    case AtLogin(l) =>
      LT.StepKeepsInv(s.login, l);
      LoginStepKeepsProxy(s, l);
      LoginStepKeepsAgreement(s, l);
    case AtProxy(p) =>
      P.StepKeepsInv(s.proxy, p);
      ProxyStepKeepsAgreement(s, p);
  }

  lemma InitHoldsInv(s: System)
    requires Init(s)
    ensures Inv(s)
  {
    LT.InitHoldsInv(s.login);
  }

  lemma {:induction false} RunKeepsInv(trace: seq<System>, steps: seq<Step>)
    requires IsRun(trace, steps)
    ensures Inv(trace[|steps|])
    decreases |steps|
  {
    if |steps| == 0 {
      InitHoldsInv(trace[0]);
    } else {
      var last := |steps| - 1;
      RunKeepsInv(trace[..|steps|], steps[..last]);
      StepKeepsInv(trace[last], steps[last]);
    }
  }

  /**
   * Cross-service agreement: when Login shows `success`, Proxy stored a token of that very attempt for that identity, the
   * token is one Login sent for it, the attempt was the one begun most recently on the account at that moment, and it is
   * the only token ever stored for the attempt.
   */
  lemma SuccessMeansProxyAccepted(trace: seq<System>, steps: seq<Step>, t: TaskId) returns (k: nat, e: EnterpriseId)
    requires IsRun(trace, steps)
    requires t in trace[|steps|].login.db.tasks && trace[|steps|].login.db.tasks[t].status == S.Success
    ensures var s := trace[|steps|]; var task := s.login.db.tasks[t]; var log := s.proxy.log;
      && k < |log| && log[k].Saved? && log[k].identity == task.mapping.identity && log[k].attempt == task.attempt
      && P.LastBegun(log[..k], log[k].identity) == Some(log[k].attempt)
      && L.SaveRequest(e, log[k].identity, log[k].attempt, log[k].token) in s.login.sent
      && (forall j | 0 <= j < |log| && log[j].Saved? && log[j].attempt == task.attempt :: j == k)
  {
    RunKeepsInv(trace, steps);
    var s := trace[|steps|];
    k, e := SavedForTask(s, t);
    SavedOnce(s.proxy, k);
  }

  lemma SavedForTask(s: System, t: TaskId) returns (k: nat, e: EnterpriseId)
    requires (forall u :: LI.LocalOk(s.login, u)) && Agreement(s)
    requires t in s.login.db.tasks && s.login.db.tasks[t].status == S.Success
    ensures var task := s.login.db.tasks[t]; var log := s.proxy.log;
      && k < |log| && log[k].Saved? && log[k].identity == task.mapping.identity && log[k].attempt == task.attempt
      && L.SaveRequest(e, log[k].identity, log[k].attempt, log[k].token) in s.login.sent
  {
    var task := s.login.db.tasks[t];
    assert LI.LocalOk(s.login, t);
    assert WasSaved(s.proxy.log, task.mapping.identity, task.attempt);
    k :| 0 <= k < |s.proxy.log| && s.proxy.log[k].Saved? && s.proxy.log[k].identity == task.mapping.identity && s.proxy.log[k].attempt == task.attempt;
    e :| L.SaveRequest(e, s.proxy.log[k].identity, s.proxy.log[k].attempt, s.proxy.log[k].token) in s.login.sent;
  }

  lemma SavedOnce(s: P.Proxy, k: nat)
    requires P.Inv(s) && !s.unfencedReplay && k < |s.log| && s.log[k].Saved?
    ensures P.LastBegun(s.log[..k], s.log[k].identity) == Some(s.log[k].attempt)
    ensures forall j | 0 <= j < |s.log| && s.log[j].Saved? && s.log[j].attempt == s.log[k].attempt :: j == k
  {
    forall j | 0 <= j < |s.log| && s.log[j].Saved? && s.log[j].attempt == s.log[k].attempt ensures j == k {
      P.SavedAttemptsOwnOneIdentity(s, j, k);
    }
  }

  /**
   * "Cancel wins" across both services: once a failure report of an attempt took effect at Proxy, Login never shows
   * `success` for that attempt.
   */
  lemma NoSuccessAfterReportedFailure(trace: seq<System>, steps: seq<Step>, t: TaskId, f: nat)
    requires IsRun(trace, steps) && f < |trace[|steps|].proxy.log| && trace[|steps|].proxy.log[f].Failed?
    requires t in trace[|steps|].login.db.tasks && trace[|steps|].login.db.tasks[t].attempt == trace[|steps|].proxy.log[f].attempt
    ensures trace[|steps|].login.db.tasks[t].status != S.Success
  {
    RunKeepsInv(trace, steps);
    var s := trace[|steps|];
    if s.login.db.tasks[t].status == S.Success {
      var k, e := SavedForTask(s, t);
      FailedExcludesSaved(s.proxy, f, k);
    }
  }

  lemma FailedExcludesSaved(s: P.Proxy, f: nat, k: nat)
    requires P.Inv(s) && !s.unfencedReplay && f < |s.log| && k < |s.log| && s.log[f].Failed? && s.log[k].Saved?
    ensures s.log[f].attempt != s.log[k].attempt
  {
    if s.log[f].attempt == s.log[k].attempt {
      P.SavedAttemptsOwnOneIdentity(s, f, k);
      if f < k { assert s.log[..k][f] == s.log[f]; assert P.Closed(s.log[..k], s.log[k].identity, s.log[k].attempt); }
      assert false;
    }
  }

  // ---------------------------------------------------------------- what Proxy answers

  /** The attempt was begun in place of another one, as only a retry does. */
  ghost predicate WasPrepared(log: seq<P.Event>, attempt: AttemptId) {
    exists k | 0 <= k < |log| :: log[k].Began? && log[k].attempt == attempt && log[k].guard.Expect?
  }

  /** The events a step of Proxy adds to the history. */
  lemma ProxyStepAppends(s: System, p: P.Step, i: Identity, a: AttemptId)
    requires ProxyMay(s, p)
    ensures var log, log' := s.proxy.log, P.Apply(s.proxy, p).log;
      && |log| <= |log'| <= |log| + 1 && log'[..|log|] == log
      && (SaveAccepted(i, a) in AnswersOf(s, p) <==>
            |log'| > |log| && log'[|log|].Saved? && log'[|log|].identity == i && log'[|log|].attempt == a)
      && (PrepareAccepted(a) in AnswersOf(s, p) <==>
            |log'| > |log| && log'[|log|].Began? && log'[|log|].attempt == a && log'[|log|].guard.Expect?)
  {
  }

  lemma OneMoreEvent(log: seq<P.Event>, log': seq<P.Event>, i: Identity, a: AttemptId)
    requires |log| <= |log'| <= |log| + 1 && log'[..|log|] == log
    ensures WasSaved(log', i, a) <==>
      WasSaved(log, i, a) || (|log'| > |log| && log'[|log|].Saved? && log'[|log|].identity == i && log'[|log|].attempt == a)
    ensures WasPrepared(log', a) <==>
      WasPrepared(log, a) || (|log'| > |log| && log'[|log|].Began? && log'[|log|].attempt == a && log'[|log|].guard.Expect?)
  {
    assert forall k | 0 <= k < |log| :: log'[k] == log[k];
  }

  lemma LoginStepIsSilent(s: System, l: L.Step)
    requires LoginMay(s, l)
    ensures Apply(s, AtLogin(l)).proxy.log == s.proxy.log && Apply(s, AtLogin(l)).answers == s.answers
  {
  }

  /** Over every run, Proxy accepted exactly the tokens it stored, and confirmed exactly the retries it began. */
  lemma {:induction false} AnswersAreExact(trace: seq<System>, steps: seq<Step>, i: Identity, a: AttemptId)
    requires IsRun(trace, steps)
    ensures var s := trace[|steps|];
      && (SaveAccepted(i, a) in s.answers <==> WasSaved(s.proxy.log, i, a))
      && (PrepareAccepted(a) in s.answers <==> WasPrepared(s.proxy.log, a))
    decreases |steps|
  {
    if |steps| > 0 {
      var last := |steps| - 1;
      AnswersAreExact(trace[..|steps|], steps[..last], i, a);
      StepAnswers(trace[last], steps[last], i, a);
    }
  }

  ghost predicate AnswersAgree(s: System, i: Identity, a: AttemptId) {
    && (SaveAccepted(i, a) in s.answers <==> WasSaved(s.proxy.log, i, a))
    && (PrepareAccepted(a) in s.answers <==> WasPrepared(s.proxy.log, a))
  }

  lemma StepAnswers(s: System, step: Step, i: Identity, a: AttemptId)
    requires Enabled(s, step) && AnswersAgree(s, i, a)
    ensures AnswersAgree(Apply(s, step), i, a)
  {
    match step
    case AtLogin(l) => LoginStepIsSilent(s, l);
    case AtProxy(p) =>
      ProxyStepAppends(s, p, i, a);
      OneMoreEvent(s.proxy.log, P.Apply(s.proxy, p).log, i, a);
  }

  /** A login that hears of its stored token shows success, and Proxy stored a token that Login sent for that attempt. */
  lemma AcceptedLoginSucceeds(trace: seq<System>, steps: seq<Step>, n: nat, id: TaskId)
    requires IsRun(trace, steps) && n < |steps| && steps[n] == AtLogin(L.DoTokenSaved(id))
    ensures LO.Succeeds(trace[n].login, trace[n + 1].login, id)
    ensures var run, log := trace[n].login.runs[id], trace[n].proxy.log;
      exists k | 0 <= k < |log| :: log[k].Saved? && log[k].identity == run.identity && log[k].attempt == run.attempt
        && exists e :: L.SaveRequest(e, run.identity, run.attempt, log[k].token) in trace[n].login.sent
  {
    var s := trace[n];
    RunKeepsInv(trace[..n + 1], steps[..n]);
    assert Enabled(s, steps[n]) && trace[n + 1] == Apply(s, steps[n]);
    AcceptedStepSucceeds(s, id);
    var run := s.login.runs[id];
    assert WasSaved(s.proxy.log, run.identity, run.attempt);
  }

  lemma AcceptedStepSucceeds(s: System, id: TaskId)
    requires LI.LoginInv(s.login) && L.RunIn(s.login, id, L.Saving)
    ensures LO.Succeeds(s.login, L.TokenSaved(s.login, id), id)
  {
    assert LI.LocalOk(s.login, id);
    LO.TokenSavedSucceeds(s.login, id);
  }
}
