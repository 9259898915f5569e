/**
 * The Proxy account row and the handlers that write it. `copilot_oauth_attempt_id` is the only fence: every write that
 * belongs to an authorization attempt is one compare-and-set statement on it, while the handlers around those statements
 * suspend (for GitHub, for the SSO password) between their check and their write. SQLite and MySQL run the same guards.
 */
module ProxyAccounts {
  import opened Common

  datatype OauthStatus = Missing | Valid | Refreshing | AuthFailed | Expired

  datatype Account = Account(
    enterprise: EnterpriseId, ssoUser: string, ghLogin: Option<string>,
    token: Option<Token>, status: OauthStatus, attempt: Option<AttemptId>)

  type Accounts = map<Identity, Account>

  /** The optional `expectedAttemptId` of a begin: absent (forced), or the attempt the row must still point at. */
  datatype Guard = Unguarded | Expect(previous: Option<AttemptId>)

  function Coalesce<T>(preferred: Option<T>, otherwise: Option<T>): Option<T> {
    if preferred.Some? then preferred else otherwise
  }

  // ---------------------------------------------------------------- the guarded statements

  predicate CanBegin(rows: Accounts, identity: Identity, guard: Guard) {
    identity in rows && (guard.Expect? ==> rows[identity].attempt == guard.previous)
  }

  predicate CanSave(rows: Accounts, identity: Identity, attempt: AttemptId) {
    identity in rows && rows[identity].attempt == Some(attempt) && rows[identity].status == Refreshing
  }

  predicate CanFail(rows: Accounts, identity: Identity, attempt: AttemptId) {
    identity in rows && rows[identity].attempt == Some(attempt)
  }

  predicate CanInvalidate(rows: Accounts, identity: Identity, expected: Token) {
    identity in rows && rows[identity].token == Some(expected) && rows[identity].status == Valid
  }

  function BeginRow(row: Account, attempt: AttemptId): Account {
    row.(status := Refreshing, attempt := Some(attempt))
  }

  function SaveRow(row: Account, token: Token, ghLogin: Option<string>): Account {
    row.(token := Some(token), ghLogin := Coalesce(ghLogin, row.ghLogin), status := Valid, attempt := None)
  }

  function CreatedRows(rows: Accounts, identity: Identity, enterprise: EnterpriseId, ssoUser: string,
                       ghLogin: Option<string>, status: OauthStatus): Accounts
  {
    rows[identity :=
      if identity in rows then
        rows[identity].(enterprise := enterprise, ssoUser := ssoUser, ghLogin := Coalesce(ghLogin, rows[identity].ghLogin))
      else Account(enterprise, ssoUser, ghLogin, None, status, None)]
  }

  function ImportedRows(rows: Accounts, identity: Identity, enterprise: EnterpriseId, ssoUser: string,
                        ghLogin: Option<string>, token: Token): Accounts
  {
    var login := if identity in rows then Coalesce(ghLogin, rows[identity].ghLogin) else ghLogin;
    rows[identity := Account(enterprise, ssoUser, login, Some(token), Valid, None)]
  }

  /** The storage object: each method is one statement of the account table. */
  class AccountTable {
    var rows: Accounts

    constructor ()
      ensures rows == map[]
    {
      rows := map[];
    }

    method SaveCopilotOauthToken(identity: Identity, attempt: AttemptId, token: Token, ghLogin: Option<string>)
      returns (saved: Option<Account>)
      modifies this
      ensures saved.Some? <==>
        identity in old(rows) && old(rows)[identity].attempt == Some(attempt) && old(rows)[identity].status == Refreshing
      ensures saved.Some? ==> var was := old(rows)[identity];
        saved.value == Account(was.enterprise, was.ssoUser, if ghLogin.Some? then ghLogin else was.ghLogin, Some(token), Valid, None)
      ensures saved.Some? ==> rows == old(rows)[identity := saved.value]
      ensures saved.None? ==> rows == old(rows)
    {
      saved := None;
      if CanSave(rows, identity, attempt) {
        rows := rows[identity := SaveRow(rows[identity], token, ghLogin)];
        saved := Some(rows[identity]);
      }
    }

    method BeginCopilotOauthAuthorization(identity: Identity, attempt: AttemptId, guard: Guard) returns (changed: bool)
      modifies this
      ensures changed <==> identity in old(rows) && (guard.Expect? ==> old(rows)[identity].attempt == guard.previous)
      ensures changed ==> var was := old(rows)[identity];
        rows == old(rows)[identity := Account(was.enterprise, was.ssoUser, was.ghLogin, was.token, Refreshing, Some(attempt))]
      ensures !changed ==> rows == old(rows)
    {
      changed := CanBegin(rows, identity, guard);
      if changed { rows := rows[identity := BeginRow(rows[identity], attempt)]; }
    }

    method FailCopilotOauthAuthorization(identity: Identity, attempt: AttemptId) returns (changed: bool)
      modifies this
      ensures changed <==> identity in old(rows) && old(rows)[identity].attempt == Some(attempt)
      ensures rows == if changed then old(rows)[identity := old(rows)[identity].(status := AuthFailed)] else old(rows)
    {
      changed := CanFail(rows, identity, attempt);
      if changed { rows := rows[identity := rows[identity].(status := AuthFailed)]; }
    }

    method InvalidateCopilotOauthToken(identity: Identity, expected: Token, status: OauthStatus) returns (changed: bool)
      requires status in {Expired, AuthFailed}
      modifies this
      ensures changed <==>
        identity in old(rows) && old(rows)[identity].token == Some(expected) && old(rows)[identity].status == Valid
      ensures rows == if changed
                      then old(rows)[identity := old(rows)[identity].(token := None, status := status, attempt := None)]
                      else old(rows)
    {
      changed := CanInvalidate(rows, identity, expected);
      if changed { rows := rows[identity := rows[identity].(token := None, status := status, attempt := None)]; }
    }

    method ImportCopilotOauthToken(identity: Identity, enterprise: EnterpriseId, ssoUser: string,
                                   ghLogin: Option<string>, token: Token)
      modifies this
      ensures identity in rows && rows[identity].enterprise == enterprise && rows[identity].ssoUser == ssoUser
      ensures rows[identity].token == Some(token) && rows[identity].status == Valid && rows[identity].attempt == None
      ensures rows[identity].ghLogin == if ghLogin.Some? || identity !in old(rows) then ghLogin else old(rows)[identity].ghLogin
      ensures rows == old(rows)[identity := rows[identity]]
    {
      var login := ghLogin;
      if identity in rows { login := Coalesce(ghLogin, rows[identity].ghLogin); }
      rows := rows[identity := Account(enterprise, ssoUser, login, Some(token), Valid, None)];
    }
  }

  // ---------------------------------------------------------------- handlers as a step system

  /** Who drew an attempt id. Ids are random, so `issued` holds each of them once. */
  datatype Origin = Forced(identity: Identity) | RetryOf(identity: Identity, previous: Option<AttemptId>)

  datatype PrepareCall = PrepareCall(
    enterprise: EnterpriseId, identity: Identity, attempt: AttemptId, previous: Option<AttemptId>,
    ssoUser: string, ghLogin: string, defaultPassword: bool, customSso: bool)

  datatype SaveCall = SaveCall(
    enterprise: EnterpriseId, identity: Identity, attempt: AttemptId, token: Token, ghLogin: Option<string>)

  /** Writes that took effect, oldest first. `was` is the row just before a begin. */
  datatype Event =
    | Began(identity: Identity, attempt: AttemptId, guard: Guard, was: Account)
    | Saved(identity: Identity, attempt: AttemptId, token: Token)
    | Failed(identity: Identity, attempt: AttemptId)

  /**
   * `saving` and `preparing` are handlers suspended between their check and their statement. A handler stays in the set
   * after it wrote, which stands for any number of duplicated deliveries. `unfencedReplay` notes that a retry naming no
   * previous attempt began its attempt a second time.
   */
  datatype Proxy = Proxy(
    rows: Accounts, saving: set<SaveCall>, preparing: set<PrepareCall>,
    issued: map<AttemptId, Origin>, log: seq<Event>, unfencedReplay: bool)

  datatype Step =
    | CreateAccount(identity: Identity, enterprise: EnterpriseId, ssoUser: string, ghLogin: Option<string>, status: OauthStatus)
    | ImportToken(identity: Identity, enterprise: EnterpriseId, ssoUser: string, ghLogin: Option<string>, token: Token)
    | Invalidate(identity: Identity, expected: Token, status: OauthStatus)
    | DeleteAccount(identity: Identity)
    | IssueRetry(identity: Identity, attempt: AttemptId, previous: Option<AttemptId>)
    | ForceBegin(identity: Identity, attempt: AttemptId)
    | PrepareCheck(prepare: PrepareCall)
    | PrepareCommit(prepare: PrepareCall)
    | SaveCheck(save: SaveCall)
    | SaveCommit(save: SaveCall)
    | SaveMismatch(save: SaveCall)
    | MarkFailed(identity: Identity, attempt: AttemptId)
    | Restart

  predicate Init(s: Proxy) {
    s == Proxy(map[], {}, {}, map[], [], false)
  }

  /** The account of that enterprise; a row of another enterprise looks missing. */
  predicate HasAccount(s: Proxy, enterprise: EnterpriseId, identity: Identity) {
    identity in s.rows && s.rows[identity].enterprise == enterprise
  }

  /** The non-forced branch of `assertAuthorizable`. */
  predicate Authorizable(row: Account, call: PrepareCall) {
    && row.ssoUser == call.ssoUser && row.ghLogin == Some(call.ghLogin)
    && row.status != Valid
    && row.attempt == call.previous
    && (call.defaultPassword ==> call.customSso)
  }

  predicate IsCurrentAttempt(row: Account, attempt: AttemptId) {
    row.attempt == Some(attempt) && row.status == Refreshing
  }

  predicate Enabled(s: Proxy, step: Step) {
    match step
    case CreateAccount(_, _, _, _, status) => status in {Missing, AuthFailed}
    case ImportToken(_, _, _, _, _) => true
    case Invalidate(_, _, status) => status in {Expired, AuthFailed}
    case DeleteAccount(_) => true
    case IssueRetry(_, attempt, _) => attempt !in s.issued
    case ForceBegin(identity, attempt) => attempt !in s.issued && CanBegin(s.rows, identity, Unguarded)
    case PrepareCheck(call) =>
      && call.attempt in s.issued && s.issued[call.attempt] == RetryOf(call.identity, call.previous)
      && HasAccount(s, call.enterprise, call.identity) && Authorizable(s.rows[call.identity], call)
    case PrepareCommit(call) => call in s.preparing
    case SaveCheck(call) =>
      HasAccount(s, call.enterprise, call.identity) && IsCurrentAttempt(s.rows[call.identity], call.attempt)
    case SaveCommit(call) => call in s.saving
    case SaveMismatch(call) => call in s.saving
    case MarkFailed(_, _) => true
    case Restart => true
  }

  function BeginStep(s: Proxy, identity: Identity, attempt: AttemptId, guard: Guard): Proxy {
    if !CanBegin(s.rows, identity, guard) then s else
      var was := s.rows[identity];
      s.(rows := s.rows[identity := BeginRow(was, attempt)],
         log := s.log + [Began(identity, attempt, guard, was)],
         unfencedReplay := s.unfencedReplay || (guard == Expect(None) && Begun(s.log, identity, attempt)))
  }

  function FailStep(s: Proxy, identity: Identity, attempt: AttemptId): Proxy {
    if !CanFail(s.rows, identity, attempt) then s else
      s.(rows := s.rows[identity := s.rows[identity].(status := AuthFailed)], log := s.log + [Failed(identity, attempt)])
  }

  function SaveStep(s: Proxy, call: SaveCall): Proxy {
    if !CanSave(s.rows, call.identity, call.attempt) then s else
      s.(rows := s.rows[call.identity := SaveRow(s.rows[call.identity], call.token, call.ghLogin)],
         log := s.log + [Saved(call.identity, call.attempt, call.token)])
  }

  function Apply(s: Proxy, step: Step): Proxy
    requires Enabled(s, step)
  {
    match step
    case CreateAccount(identity, enterprise, ssoUser, ghLogin, status) =>
      s.(rows := CreatedRows(s.rows, identity, enterprise, ssoUser, ghLogin, status))
    case ImportToken(identity, enterprise, ssoUser, ghLogin, token) =>
      s.(rows := ImportedRows(s.rows, identity, enterprise, ssoUser, ghLogin, token))
    case Invalidate(identity, expected, status) =>
      if CanInvalidate(s.rows, identity, expected)
      then s.(rows := s.rows[identity := s.rows[identity].(token := None, status := status, attempt := None)])
      else s
    case DeleteAccount(identity) => s.(rows := s.rows - {identity})
    case IssueRetry(identity, attempt, previous) => s.(issued := s.issued[attempt := RetryOf(identity, previous)])
    case ForceBegin(identity, attempt) =>
      BeginStep(s.(issued := s.issued[attempt := Forced(identity)]), identity, attempt, Unguarded)
    case PrepareCheck(call) => s.(preparing := s.preparing + {call})
    case PrepareCommit(call) => BeginStep(s, call.identity, call.attempt, Expect(call.previous))
    case SaveCheck(call) => s.(saving := s.saving + {call})
    case SaveCommit(call) => SaveStep(s, call)
    case SaveMismatch(call) => FailStep(s, call.identity, call.attempt)
    case MarkFailed(identity, attempt) => FailStep(s, identity, attempt)
    case Restart => s.(saving := {}, preparing := {})
  }

  ghost predicate IsRun(trace: seq<Proxy>, steps: seq<Step>) {
    && |trace| == |steps| + 1
    && Init(trace[0])
    && forall i | 0 <= i < |steps| :: Enabled(trace[i], steps[i]) && trace[i + 1] == Apply(trace[i], steps[i])
  }

  // ---------------------------------------------------------------- reading the history

  predicate Begun(log: seq<Event>, identity: Identity, attempt: AttemptId) {
    exists i | 0 <= i < |log| :: log[i].Began? && log[i].identity == identity && log[i].attempt == attempt
  }

  /** The attempt ended: its token was stored or its failure was recorded. */
  predicate Closed(log: seq<Event>, identity: Identity, attempt: AttemptId) {
    exists i | 0 <= i < |log| :: !log[i].Began? && log[i].identity == identity && log[i].attempt == attempt
  }

  function LastBegun(log: seq<Event>, identity: Identity): Option<AttemptId> {
    if log == [] then None
    else
      var last := log[|log| - 1];
      if last.Began? && last.identity == identity then Some(last.attempt) else LastBegun(log[..|log| - 1], identity)
  }

  // ---------------------------------------------------------------- the invariant

  /** A row that names an attempt is being authorized or failed, never `valid`, and names the latest one begun. */
  ghost predicate RowsNameLatest(s: Proxy) {
    forall id | id in s.rows && s.rows[id].attempt.Some? ::
      && s.rows[id].status in {Refreshing, AuthFailed}
      && LastBegun(s.log, id) == s.rows[id].attempt
  }

  ghost predicate BeginsWereIssued(s: Proxy) {
    && (forall i | 0 <= i < |s.log| && s.log[i].Began? ::
          s.log[i].attempt in s.issued && s.issued[s.log[i].attempt].identity == s.log[i].identity)
    && (forall call | call in s.preparing ::
          call.attempt in s.issued && s.issued[call.attempt] == RetryOf(call.identity, call.previous))
  }

  ghost predicate ClosedWereBegun(s: Proxy) {
    forall i | 0 <= i < |s.log| && !s.log[i].Began? :: Begun(s.log, s.log[i].identity, s.log[i].attempt)
  }

  ghost predicate GuardsHeld(s: Proxy) {
    forall i | 0 <= i < |s.log| && s.log[i].Began? && s.log[i].guard.Expect? ::
      && s.log[i].was.attempt == s.log[i].guard.previous
      && (s.log[i].guard.previous.Some? ==> s.log[i].was.status != Valid)
  }

  ghost predicate WritesByLatest(s: Proxy) {
    forall i | 0 <= i < |s.log| && !s.log[i].Began? :: LastBegun(s.log[..i], s.log[i].identity) == Some(s.log[i].attempt)
  }

  /** An attempt that replaced `previous` leaves it behind for good. */
  ghost predicate PreviousLeftBehind(s: Proxy) {
    forall i | 0 <= i < |s.log| && s.log[i].Began? && s.log[i].attempt in s.issued ::
      var origin := s.issued[s.log[i].attempt];
      origin.RetryOf? && origin.previous.Some? ==>
        && Begun(s.log, s.log[i].identity, origin.previous.value)
        && LastBegun(s.log, s.log[i].identity) != origin.previous
  }

  ghost predicate OpenUntilClosed(s: Proxy) {
    && (forall id | id in s.rows && s.rows[id].attempt.Some? && s.rows[id].status == Refreshing ::
          !Closed(s.log, id, s.rows[id].attempt.value))
    && (forall i | 0 <= i < |s.log| && s.log[i].Saved? :: !Closed(s.log[..i], s.log[i].identity, s.log[i].attempt))
  }

  /** A stored token ends its attempt: the row no longer names it and nothing is written for it again. */
  ghost predicate SavedIsFinal(s: Proxy) {
    && (forall i | 0 <= i < |s.log| && s.log[i].Saved? && s.log[i].identity in s.rows ::
          s.rows[s.log[i].identity].attempt != Some(s.log[i].attempt))
    && (forall i, j | 0 <= i < j < |s.log| && s.log[i].Saved? && !s.log[j].Began? ::
          s.log[i].identity == s.log[j].identity ==> s.log[i].attempt != s.log[j].attempt)
  }

  ghost predicate Inv(s: Proxy) {
    && RowsNameLatest(s) && BeginsWereIssued(s) && ClosedWereBegun(s) && GuardsHeld(s) && WritesByLatest(s)
    && (!s.unfencedReplay ==> PreviousLeftBehind(s) && OpenUntilClosed(s) && SavedIsFinal(s))
  }

  lemma Appended(log: seq<Event>, e: Event)
    ensures (log + [e])[..|log|] == log
    ensures forall i | 0 <= i <= |log| :: (log + [e])[..i] == log[..i]
    ensures forall id :: LastBegun(log + [e], id) ==
                         if e.Began? && e.identity == id then Some(e.attempt) else LastBegun(log, id)
    ensures forall id, a :: Begun(log + [e], id, a) <==> Begun(log, id, a) || (e.Began? && e.identity == id && e.attempt == a)
    ensures forall id, a :: Closed(log + [e], id, a) <==> Closed(log, id, a) || (!e.Began? && e.identity == id && e.attempt == a)
  {
    var all := log + [e];
    assert all[..|log|] == log;
    assert forall i | 0 <= i <= |log| :: all[..i] == log[..i];
    assert forall i | 0 <= i < |log| :: all[i] == log[i];
    assert all[|log|] == e;
    forall id, a
      ensures Begun(all, id, a) <==> Begun(log, id, a) || (e.Began? && e.identity == id && e.attempt == a)
      ensures Closed(all, id, a) <==> Closed(log, id, a) || (!e.Began? && e.identity == id && e.attempt == a)
    {
      if Begun(log, id, a) {
        var i :| 0 <= i < |log| && log[i].Began? && log[i].identity == id && log[i].attempt == a;
        assert all[i].Began?;
      }
      if Closed(log, id, a) {
        var i :| 0 <= i < |log| && !log[i].Began? && log[i].identity == id && log[i].attempt == a;
        assert !all[i].Began?;
      }
    }
  }

  lemma LatestWasBegun(log: seq<Event>, identity: Identity)
    ensures LastBegun(log, identity).Some? ==> Begun(log, identity, LastBegun(log, identity).value)
  {
    if log != [] {
      var front := log[..|log| - 1];
      LatestWasBegun(front, identity);
      Appended(front, log[|log| - 1]);
      assert front + [log[|log| - 1]] == log;
    }
  }

  lemma BeginKeepsInv(s: Proxy, identity: Identity, attempt: AttemptId, guard: Guard)
    requires Inv(s)
    requires attempt in s.issued && s.issued[attempt].identity == identity
    requires match guard
             case Expect(previous) => s.issued[attempt] == RetryOf(identity, previous)
             case Unguarded => s.issued[attempt].Forced? && !Begun(s.log, identity, attempt)
    ensures Inv(BeginStep(s, identity, attempt, guard))
  {
    var t := BeginStep(s, identity, attempt, guard);
    if CanBegin(s.rows, identity, guard) {
      var was := s.rows[identity];
      var e := Began(identity, attempt, guard, was);
      Appended(s.log, e);
      if !t.unfencedReplay {
        // Re-beginning a fenced attempt is impossible: the row would name an attempt that was left behind.
        assert !Begun(s.log, identity, attempt);
        BeginKeepsFencing(s, identity, attempt, guard);
      }
    }
  }

  lemma BeginKeepsFencing(s: Proxy, identity: Identity, attempt: AttemptId, guard: Guard)
    requires Inv(s) && !s.unfencedReplay
    requires CanBegin(s.rows, identity, guard)
    requires attempt in s.issued && s.issued[attempt].identity == identity
    requires !Begun(s.log, identity, attempt)
    requires guard.Expect? ==> s.issued[attempt] == RetryOf(identity, guard.previous)
    requires guard.Unguarded? ==> s.issued[attempt].Forced?
    ensures PreviousLeftBehind(BeginStep(s, identity, attempt, guard))
    ensures OpenUntilClosed(BeginStep(s, identity, attempt, guard))
    ensures SavedIsFinal(BeginStep(s, identity, attempt, guard))
  {
    var t := BeginStep(s, identity, attempt, guard);
    Appended(s.log, Began(identity, attempt, guard, s.rows[identity]));
    LatestWasBegun(s.log, identity);
    assert !Closed(s.log, identity, attempt);
    forall i | 0 <= i < |t.log| && t.log[i].Began? && t.log[i].attempt in t.issued
      ensures var origin := t.issued[t.log[i].attempt];
        origin.RetryOf? && origin.previous.Some? ==>
          && Begun(t.log, t.log[i].identity, origin.previous.value)
          && LastBegun(t.log, t.log[i].identity) != origin.previous
    {
      if i < |s.log| { assert t.log[i] == s.log[i]; }
    }
  }

  lemma FailKeepsBasics(s: Proxy, identity: Identity, attempt: AttemptId)
    requires Inv(s) && CanFail(s.rows, identity, attempt)
    ensures var t := FailStep(s, identity, attempt);
      RowsNameLatest(t) && BeginsWereIssued(t) && ClosedWereBegun(t) && GuardsHeld(t) && WritesByLatest(t)
  {
    Appended(s.log, Failed(identity, attempt));
    LatestWasBegun(s.log, identity);
  }

  lemma FailKeepsFencing(s: Proxy, identity: Identity, attempt: AttemptId)
    requires Inv(s) && !s.unfencedReplay && CanFail(s.rows, identity, attempt)
    ensures var t := FailStep(s, identity, attempt); PreviousLeftBehind(t) && OpenUntilClosed(t) && SavedIsFinal(t)
  {
    Appended(s.log, Failed(identity, attempt));
  }

  lemma FailKeepsInv(s: Proxy, identity: Identity, attempt: AttemptId)
    requires Inv(s)
    ensures Inv(FailStep(s, identity, attempt))
  {
    if CanFail(s.rows, identity, attempt) {
      FailKeepsBasics(s, identity, attempt);
      if !s.unfencedReplay { FailKeepsFencing(s, identity, attempt); }
    }
  }

  lemma SaveKeepsBasics(s: Proxy, call: SaveCall)
    requires Inv(s) && CanSave(s.rows, call.identity, call.attempt)
    ensures var t := SaveStep(s, call);
      RowsNameLatest(t) && BeginsWereIssued(t) && ClosedWereBegun(t) && GuardsHeld(t) && WritesByLatest(t)
  {
    Appended(s.log, Saved(call.identity, call.attempt, call.token));
    LatestWasBegun(s.log, call.identity);
  }

  lemma SaveKeepsFencing(s: Proxy, call: SaveCall)
    requires Inv(s) && !s.unfencedReplay && CanSave(s.rows, call.identity, call.attempt)
    ensures var t := SaveStep(s, call); PreviousLeftBehind(t) && OpenUntilClosed(t) && SavedIsFinal(t)
  {
    Appended(s.log, Saved(call.identity, call.attempt, call.token));
  }

  lemma SaveKeepsInv(s: Proxy, call: SaveCall)
    requires Inv(s)
    ensures Inv(SaveStep(s, call))
  {
    if CanSave(s.rows, call.identity, call.attempt) {
      SaveKeepsBasics(s, call);
      if !s.unfencedReplay { SaveKeepsFencing(s, call); }
    }
  }

  /** A change of one row that leaves the history alone: the row keeps its attempt and status, or names no attempt. */
  lemma RowChangeKeepsInv(s: Proxy, rows: Accounts, identity: Identity)
    requires Inv(s) && rows - {identity} == s.rows - {identity}
    requires identity in rows ==>
      rows[identity].attempt.None?
      || (identity in s.rows && rows[identity].attempt == s.rows[identity].attempt && rows[identity].status == s.rows[identity].status)
    ensures Inv(s.(rows := rows))
  {
    var t := s.(rows := rows);
    forall id | id in rows && rows[id].attempt.Some?
      ensures id in s.rows && rows[id].attempt == s.rows[id].attempt && rows[id].status == s.rows[id].status
    {
      if id != identity { assert id in rows - {identity} && (rows - {identity})[id] == (s.rows - {identity})[id]; }
    }
  }

  lemma StatementKeepsInv(s: Proxy, step: Step)
    requires Inv(s) && Enabled(s, step)
    requires step.CreateAccount? || step.ImportToken? || step.Invalidate? || step.DeleteAccount?
    ensures Inv(Apply(s, step))
  {
    RowChangeKeepsInv(s, Apply(s, step).rows, step.identity);
  }

  lemma HandlerKeepsInv(s: Proxy, step: Step)
    requires Inv(s) && Enabled(s, step)
    requires step.SaveCommit? || step.SaveMismatch? || step.MarkFailed? || step.PrepareCommit?
    ensures Inv(Apply(s, step))
  {
    match step
    case PrepareCommit(call) => BeginKeepsInv(s, call.identity, call.attempt, Expect(call.previous));
    case SaveCommit(call) => SaveKeepsInv(s, call);
    case SaveMismatch(call) => FailKeepsInv(s, call.identity, call.attempt);
    case MarkFailed(identity, attempt) => FailKeepsInv(s, identity, attempt);
  }

  lemma ForceBeginKeepsInv(s: Proxy, identity: Identity, attempt: AttemptId)
    requires Inv(s) && Enabled(s, ForceBegin(identity, attempt))
    ensures Inv(Apply(s, ForceBegin(identity, attempt)))
  {
    BeginKeepsInv(s.(issued := s.issued[attempt := Forced(identity)]), identity, attempt, Unguarded);
  }

  lemma StepKeepsInv(s: Proxy, step: Step)
    requires Inv(s) && Enabled(s, step)
    ensures Inv(Apply(s, step))
  {
    if step.SaveCommit? || step.SaveMismatch? || step.MarkFailed? || step.PrepareCommit? {
      HandlerKeepsInv(s, step);
    } else if step.CreateAccount? || step.ImportToken? || step.Invalidate? || step.DeleteAccount? {
      StatementKeepsInv(s, step);
    } else if step.ForceBegin? {
      ForceBeginKeepsInv(s, step.identity, step.attempt);
    }
  }

  lemma {:induction false} RunKeepsInv(trace: seq<Proxy>, steps: seq<Step>)
    requires IsRun(trace, steps)
    ensures Inv(trace[|steps|])
    decreases |steps|
  {
    if |steps| > 0 {
      var last := |steps| - 1;
      RunKeepsInv(trace[..|steps|], steps[..last]);
      StepKeepsInv(trace[last], steps[last]);
    }
  }

  // ---------------------------------------------------------------- theorems over every run

  /** Fencing: a stored token or a recorded failure always belonged to the attempt begun most recently at that moment. */
  lemma WritesBelongToLatestAttempt(trace: seq<Proxy>, steps: seq<Step>, i: nat)
    requires IsRun(trace, steps)
    requires i < |trace[|steps|].log| && !trace[|steps|].log[i].Began?
    ensures var log := trace[|steps|].log; LastBegun(log[..i], log[i].identity) == Some(log[i].attempt)
  {
    RunKeepsInv(trace, steps);
  }

  /** Every retry was issued with the attempt it replaces. */
  ghost predicate RetriesNamePrevious(s: Proxy) {
    forall a | a in s.issued && s.issued[a].RetryOf? :: s.issued[a].previous.Some?
  }

  /** When every retry names the attempt it replaces, no attempt is begun twice and the fencing below applies. */
  lemma {:induction false} NamedRetriesAreFenced(trace: seq<Proxy>, steps: seq<Step>)
    requires IsRun(trace, steps)
    requires forall i | 0 <= i < |steps| && steps[i].IssueRetry? :: steps[i].previous.Some?
    ensures !trace[|steps|].unfencedReplay && RetriesNamePrevious(trace[|steps|])
    decreases |steps|
  {
    if |steps| > 0 {
      var last := |steps| - 1;
      NamedRetriesAreFenced(trace[..|steps|], steps[..last]);
      RunKeepsInv(trace[..|steps|], steps[..last]);
      NamedStepIsFenced(trace[last], steps[last]);
    }
  }

  lemma NamedStepIsFenced(s: Proxy, step: Step)
    requires BeginsWereIssued(s) && Enabled(s, step) && !s.unfencedReplay && RetriesNamePrevious(s)
    requires step.IssueRetry? ==> step.previous.Some?
    ensures !Apply(s, step).unfencedReplay && RetriesNamePrevious(Apply(s, step))
  {
  }

  /**
   * Exactly when the write of a suspended retry begins an attempt that was begun before, the only way out of the fencing:
   * it names no previous attempt and the account names none.
   */
  lemma RetryBeginsAgainIff(trace: seq<Proxy>, steps: seq<Step>, call: PrepareCall)
    requires IsRun(trace, steps) && call in trace[|steps|].preparing && !trace[|steps|].unfencedReplay
    requires Begun(trace[|steps|].log, call.identity, call.attempt)
    ensures var s := trace[|steps|];
      CanBegin(s.rows, call.identity, Expect(call.previous)) <==>
        call.previous.None? && call.identity in s.rows && s.rows[call.identity].attempt.None?
  {
    RunKeepsInv(trace, steps);
    var s := trace[|steps|];
    if call.previous.Some? && CanBegin(s.rows, call.identity, Expect(call.previous)) { NamedRetryBeginsOnce(s, call); }
  }

  lemma NamedRetryBeginsOnce(s: Proxy, call: PrepareCall)
    requires Inv(s) && !s.unfencedReplay && call in s.preparing && call.previous.Some? && CanBegin(s.rows, call.identity, Expect(call.previous))
    ensures !Begun(s.log, call.identity, call.attempt)
  {
    assert LastBegun(s.log, call.identity) == call.previous;
  }

  /** At most one token is ever stored for an attempt, whatever was delayed, duplicated or restarted. */
  lemma AtMostOneToken(trace: seq<Proxy>, steps: seq<Step>, i: nat, j: nat)
    requires IsRun(trace, steps) && !trace[|steps|].unfencedReplay
    requires i < |trace[|steps|].log| && j < |trace[|steps|].log|
    requires trace[|steps|].log[i].Saved? && trace[|steps|].log[j].Saved?
    requires trace[|steps|].log[i].attempt == trace[|steps|].log[j].attempt
    ensures i == j
  {
    RunKeepsInv(trace, steps);
    SavedAttemptsOwnOneIdentity(trace[|steps|], i, j);
  }

  /** A stored token is final: no failure report for its attempt ever takes effect afterwards, so the token is kept. */
  lemma StoredTokenIsKept(trace: seq<Proxy>, steps: seq<Step>, i: nat, j: nat)
    requires IsRun(trace, steps) && !trace[|steps|].unfencedReplay
    requires i < j < |trace[|steps|].log|
    requires trace[|steps|].log[i].Saved? && trace[|steps|].log[j].Failed?
    ensures trace[|steps|].log[i].attempt != trace[|steps|].log[j].attempt
  {
    RunKeepsInv(trace, steps);
    if trace[|steps|].log[i].attempt == trace[|steps|].log[j].attempt {
      SavedAttemptsOwnOneIdentity(trace[|steps|], i, j);
      assert false;
    }
  }

  lemma SavedAttemptsOwnOneIdentity(s: Proxy, i: nat, j: nat)
    requires Inv(s) && i < |s.log| && j < |s.log| && !s.log[i].Began? && !s.log[j].Began?
    requires s.log[i].attempt == s.log[j].attempt
    ensures s.log[i].identity == s.log[j].identity
  {
    assert Begun(s.log, s.log[i].identity, s.log[i].attempt);
    assert Begun(s.log, s.log[j].identity, s.log[j].attempt);
  }

  /** Cancel wins: once the failure of an attempt took effect, no token of it is ever stored. */
  lemma CancelWins(trace: seq<Proxy>, steps: seq<Step>, i: nat, j: nat)
    requires IsRun(trace, steps) && !trace[|steps|].unfencedReplay
    requires i < j < |trace[|steps|].log|
    requires trace[|steps|].log[i].Failed? && trace[|steps|].log[j].Saved?
    ensures trace[|steps|].log[i].attempt != trace[|steps|].log[j].attempt
  {
    RunKeepsInv(trace, steps);
    var log := trace[|steps|].log;
    if log[i].attempt == log[j].attempt {
      SavedAttemptsOwnOneIdentity(trace[|steps|], i, j);
      assert log[..j][i] == log[i];
      assert Closed(log[..j], log[j].identity, log[j].attempt);
      assert false;
    }
  }

  /**
   * A retry that names a previous attempt replaces exactly that attempt and never reopens a `valid` account, although the
   * password lookup suspends it between the check and the write.
   */
  lemma RetryReplacesOnlyItsPrevious(trace: seq<Proxy>, steps: seq<Step>, i: nat)
    requires IsRun(trace, steps)
    requires i < |trace[|steps|].log| && trace[|steps|].log[i].Began?
    requires trace[|steps|].log[i].guard.Expect? && trace[|steps|].log[i].guard.previous.Some?
    ensures trace[|steps|].log[i].was.attempt == trace[|steps|].log[i].guard.previous
    ensures trace[|steps|].log[i].was.status != Valid
  {
    RunKeepsInv(trace, steps);
  }

  /**
   * Exactly when the write of a suspended retry can reopen a `valid` account: it names no previous attempt and the account
   * became valid while the retry waited. Naming one therefore rules it out.
   */
  lemma RetryReopensValidIff(trace: seq<Proxy>, steps: seq<Step>, call: PrepareCall)
    requires IsRun(trace, steps) && call in trace[|steps|].preparing && call.identity in trace[|steps|].rows
    ensures var s := trace[|steps|];
      var t := Apply(s, PrepareCommit(call));
      (s.rows[call.identity].status == Valid && t.rows[call.identity].status == Refreshing) <==>
        (call.previous.None? && s.rows[call.identity].status == Valid)
  {
    RunKeepsInv(trace, steps);
  }

  lemma Perform(trace: seq<Proxy>, steps: seq<Step>, step: Step) returns (trace': seq<Proxy>, steps': seq<Step>)
    requires IsRun(trace, steps) && Enabled(trace[|steps|], step)
    ensures IsRun(trace', steps')
    ensures trace'[|steps'|] == Apply(trace[|steps|], step)
  {
    trace', steps' := trace + [Apply(trace[|steps|], step)], steps + [step];
  }

  /** Proxy commits a suspended retry and then a token for it. */
  lemma BeginsAndSaves(trace: seq<Proxy>, steps: seq<Step>, call: PrepareCall, save: SaveCall)
    returns (trace': seq<Proxy>, steps': seq<Step>)
    requires IsRun(trace, steps) && call in trace[|steps|].preparing && call.identity in trace[|steps|].rows
    requires var row := trace[|steps|].rows[call.identity]; row.attempt == call.previous && row.enterprise == save.enterprise
    requires save.identity == call.identity && save.attempt == call.attempt
    ensures IsRun(trace', steps')
    ensures var s, s' := trace[|steps|], trace'[|steps'|];
      && s'.preparing == s.preparing && call.identity in s'.rows && s'.rows[call.identity].status == Valid
      && s'.rows[call.identity].attempt == None && s'.rows[call.identity].enterprise == save.enterprise
      && s'.log == s.log + [Began(call.identity, call.attempt, Expect(call.previous), s.rows[call.identity]),
                            Saved(call.identity, call.attempt, save.token)]
  {
    trace', steps' := Perform(trace, steps, PrepareCommit(call));
    trace', steps' := Perform(trace', steps', SaveCheck(save));
    trace', steps' := Perform(trace', steps', SaveCommit(save));
  }

  /** The unfenced case is real: a duplicated retry of an account without an attempt takes a second token for one attempt. */
  lemma UnnamedRetryCanStoreTwoTokens(e: EnterpriseId, id: Identity, attempt: AttemptId, t1: Token, t2: Token)
    returns (trace: seq<Proxy>, steps: seq<Step>)
    ensures IsRun(trace, steps)
    ensures var log := trace[|steps|].log;
      && |log| == 4 && log[1] == Saved(id, attempt, t1) && log[3] == Saved(id, attempt, t2)
      && log[2].Began? && log[2].was.status == Valid
  {
    var call := PrepareCall(e, id, attempt, None, "user", "login", false, true);
    trace, steps := [Proxy(map[], {}, {}, map[], [], false)], [];
    trace, steps := Perform(trace, steps, CreateAccount(id, e, "user", Some("login"), Missing));
    trace, steps := Perform(trace, steps, IssueRetry(id, attempt, None));
    trace, steps := Perform(trace, steps, PrepareCheck(call));
    trace, steps := BeginsAndSaves(trace, steps, call, SaveCall(e, id, attempt, t1, None));
    trace, steps := BeginsAndSaves(trace, steps, call, SaveCall(e, id, attempt, t2, None));
  }
}
