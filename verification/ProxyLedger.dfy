/**
 * What an account row shows, read off the history of a run: every field is what its last writer wrote, and which steps
 * write it. The step functions of the handlers are not used to say so.
 */
module ProxyLedger {
  import opened Common
  import opened ProxyAccounts
  import opened LastWriter

  // ---------------------------------------------------------------- who writes a field

  /** The row still waits for the token of this attempt. */
  predicate Awaits(s: Proxy, id: Identity, attempt: AttemptId) {
    id in s.rows && s.rows[id].attempt == Some(attempt) && s.rows[id].status == Refreshing
  }

  predicate Names(s: Proxy, id: Identity, attempt: Option<AttemptId>) {
    id in s.rows && s.rows[id].attempt == attempt
  }

  predicate Rejects(s: Proxy, id: Identity, token: Token) {
    id in s.rows && s.rows[id].token == Some(token) && s.rows[id].status == Valid
  }

  /** The token the step leaves in the row of `id`, None when it does not touch the token. */
  function TokenWrite(s: Proxy, step: Step, id: Identity): Option<Option<Token>> {
    match step
    case SaveCommit(call) => if call.identity == id && Awaits(s, id, call.attempt) then Some(Some(call.token)) else None
    case ImportToken(identity, _, _, _, token) => if identity == id then Some(Some(token)) else None
    case Invalidate(identity, expected, _) => if identity == id && Rejects(s, id, expected) then Some(None) else None
    case DeleteAccount(identity) => if identity == id then Some(None) else None
    case _ => None
  }

  function StatusWrite(s: Proxy, step: Step, id: Identity): Option<OauthStatus> {
    match step
    case CreateAccount(identity, _, _, _, status) => if identity == id && id !in s.rows then Some(status) else None
    case ImportToken(identity, _, _, _, _) => if identity == id then Some(Valid) else None
    case SaveCommit(call) => if call.identity == id && Awaits(s, id, call.attempt) then Some(Valid) else None
    case Invalidate(identity, expected, status) => if identity == id && Rejects(s, id, expected) then Some(status) else None
    case ForceBegin(identity, _) => if identity == id then Some(Refreshing) else None
    case PrepareCommit(call) => if call.identity == id && Names(s, id, call.previous) then Some(Refreshing) else None
    case SaveMismatch(call) => if call.identity == id && Names(s, id, Some(call.attempt)) then Some(AuthFailed) else None
    case MarkFailed(identity, attempt) => if identity == id && Names(s, id, Some(attempt)) then Some(AuthFailed) else None
    case _ => None
  }

  function AttemptWrite(s: Proxy, step: Step, id: Identity): Option<Option<AttemptId>> {
    match step
    case CreateAccount(identity, _, _, _, _) => if identity == id && id !in s.rows then Some(None) else None
    case ImportToken(identity, _, _, _, _) => if identity == id then Some(None) else None
    case SaveCommit(call) => if call.identity == id && Awaits(s, id, call.attempt) then Some(None) else None
    case Invalidate(identity, expected, _) => if identity == id && Rejects(s, id, expected) then Some(None) else None
    case ForceBegin(identity, attempt) => if identity == id then Some(Some(attempt)) else None
    case PrepareCommit(call) => if call.identity == id && Names(s, id, call.previous) then Some(Some(call.attempt)) else None
    case _ => None
  }

  /** The enterprise and the SSO user, which are written together. */
  function OwnerWrite(step: Step, id: Identity): Option<(EnterpriseId, string)> {
    match step
    case CreateAccount(identity, enterprise, ssoUser, _, _) => if identity == id then Some((enterprise, ssoUser)) else None
    case ImportToken(identity, enterprise, ssoUser, _, _) => if identity == id then Some((enterprise, ssoUser)) else None
    case _ => None
  }

  /** A login that is not given never replaces a known one. */
  function LoginWrite(s: Proxy, step: Step, id: Identity): Option<Option<string>> {
    match step
    case CreateAccount(identity, _, _, login, _) => if identity == id && (login.Some? || id !in s.rows) then Some(login) else None
    case ImportToken(identity, _, _, login, _) => if identity == id && (login.Some? || id !in s.rows) then Some(login) else None
    case SaveCommit(call) => if call.identity == id && Awaits(s, id, call.attempt) && call.ghLogin.Some? then Some(call.ghLogin) else None
    case _ => None
  }

  // ---------------------------------------------------------------- one step

  /** The step leaves the row with what it writes, and every other field as it was. */
  predicate Written(s: Proxy, step: Step, t: Proxy, id: Identity) {
    id in t.rows ==>
      var row := t.rows[id];
      if id in s.rows then
        var was := s.rows[id];
        && row.token == Else(TokenWrite(s, step, id), was.token) && row.status == Else(StatusWrite(s, step, id), was.status)
        && row.attempt == Else(AttemptWrite(s, step, id), was.attempt)
        && (row.enterprise, row.ssoUser) == Else(OwnerWrite(step, id), (was.enterprise, was.ssoUser))
        && row.ghLogin == Else(LoginWrite(s, step, id), was.ghLogin)
      else
        && row.token == Else(TokenWrite(s, step, id), None) && StatusWrite(s, step, id) == Some(row.status)
        && AttemptWrite(s, step, id) == Some(row.attempt) && OwnerWrite(step, id) == Some((row.enterprise, row.ssoUser))
        && LoginWrite(s, step, id) == Some(row.ghLogin)
  }

  predicate IsStatement(step: Step) {
    step.CreateAccount? || step.ImportToken? || step.Invalidate? || step.DeleteAccount?
  }

  lemma StatementWrites(s: Proxy, step: Step, id: Identity)
    requires Enabled(s, step) && IsStatement(step)
    ensures Written(s, step, Apply(s, step), id)
  {
  }

  lemma HandlerWrites(s: Proxy, step: Step, id: Identity)
    requires Enabled(s, step) && !IsStatement(step)
    ensures Written(s, step, Apply(s, step), id)
  {
  }

  lemma StepWrites(s: Proxy, step: Step, id: Identity)
    requires Enabled(s, step)
    ensures Written(s, step, Apply(s, step), id)
  {
    if IsStatement(step) { StatementWrites(s, step, id); } else { HandlerWrites(s, step, id); }
  }

  /** A row comes with a creation or an import and goes with a deletion, which also drops its token. */
  lemma RowsComeAndGo(s: Proxy, step: Step, id: Identity)
    requires Enabled(s, step)
    ensures id in Apply(s, step).rows <==>
      (id in s.rows && step != DeleteAccount(id)) || ((step.CreateAccount? || step.ImportToken?) && step.identity == id)
    ensures id !in Apply(s, step).rows ==> Dropped(s, step, id)
  {
  }

  predicate Dropped(s: Proxy, step: Step, id: Identity) {
    Else(TokenWrite(s, step, id), None) == None && (id in s.rows ==> TokenWrite(s, step, id).Some?)
  }

  // ---------------------------------------------------------------- whole runs

  ghost function TokenWrites(trace: seq<Proxy>, steps: seq<Step>, id: Identity): seq<Option<Option<Token>>>
    requires |trace| == |steps| + 1
  {
    seq(|steps|, j requires 0 <= j < |steps| => TokenWrite(trace[j], steps[j], id))
  }

  ghost function StatusWrites(trace: seq<Proxy>, steps: seq<Step>, id: Identity): seq<Option<OauthStatus>>
    requires |trace| == |steps| + 1
  {
    seq(|steps|, j requires 0 <= j < |steps| => StatusWrite(trace[j], steps[j], id))
  }

  ghost function AttemptWrites(trace: seq<Proxy>, steps: seq<Step>, id: Identity): seq<Option<Option<AttemptId>>>
    requires |trace| == |steps| + 1
  {
    seq(|steps|, j requires 0 <= j < |steps| => AttemptWrite(trace[j], steps[j], id))
  }

  ghost function OwnerWrites(steps: seq<Step>, id: Identity): seq<Option<(EnterpriseId, string)>> {
    seq(|steps|, j requires 0 <= j < |steps| => OwnerWrite(steps[j], id))
  }

  ghost function LoginWrites(trace: seq<Proxy>, steps: seq<Step>, id: Identity): seq<Option<Option<string>>>
    requires |trace| == |steps| + 1
  {
    seq(|steps|, j requires 0 <= j < |steps| => LoginWrite(trace[j], steps[j], id))
  }

  /** What the histories say of a row. */
  ghost predicate LastWritten(trace: seq<Proxy>, steps: seq<Step>, id: Identity, row: Account)
    requires |trace| == |steps| + 1
  {
    && row.token == Else(Latest(TokenWrites(trace, steps, id)), None)
    && Some(row.status) == Latest(StatusWrites(trace, steps, id))
    && Some(row.attempt) == Latest(AttemptWrites(trace, steps, id))
    && Some((row.enterprise, row.ssoUser)) == Latest(OwnerWrites(steps, id))
    && Some(row.ghLogin) == Latest(LoginWrites(trace, steps, id))
  }

  lemma OneMoreWrite(trace: seq<Proxy>, steps: seq<Step>, id: Identity)
    requires |trace| == |steps| + 1 && |steps| > 0
    ensures var last := |steps| - 1; var trace', steps' := trace[..|steps|], steps[..last]; var s, step := trace[last], steps[last];
      && Latest(TokenWrites(trace, steps, id)) == Or(TokenWrite(s, step, id), Latest(TokenWrites(trace', steps', id)))
      && Latest(StatusWrites(trace, steps, id)) == Or(StatusWrite(s, step, id), Latest(StatusWrites(trace', steps', id)))
      && Latest(AttemptWrites(trace, steps, id)) == Or(AttemptWrite(s, step, id), Latest(AttemptWrites(trace', steps', id)))
  {
    var last := |steps| - 1;
    var trace', steps' := trace[..|steps|], steps[..last];
    var s, step := trace[last], steps[last];
    OneMore(TokenWrites(trace, steps, id), TokenWrites(trace', steps', id), TokenWrite(s, step, id));
    OneMore(StatusWrites(trace, steps, id), StatusWrites(trace', steps', id), StatusWrite(s, step, id));
    OneMore(AttemptWrites(trace, steps, id), AttemptWrites(trace', steps', id), AttemptWrite(s, step, id));
  }

  lemma OneMoreName(trace: seq<Proxy>, steps: seq<Step>, id: Identity)
    requires |trace| == |steps| + 1 && |steps| > 0
    ensures var last := |steps| - 1; var trace', steps' := trace[..|steps|], steps[..last];
      && Latest(OwnerWrites(steps, id)) == Or(OwnerWrite(steps[last], id), Latest(OwnerWrites(steps', id)))
      && Latest(LoginWrites(trace, steps, id)) == Or(LoginWrite(trace[last], steps[last], id), Latest(LoginWrites(trace', steps', id)))
  {
    var last := |steps| - 1;
    var trace', steps' := trace[..|steps|], steps[..last];
    OneMore(OwnerWrites(steps, id), OwnerWrites(steps', id), OwnerWrite(steps[last], id));
    OneMore(LoginWrites(trace, steps, id), LoginWrites(trace', steps', id), LoginWrite(trace[last], steps[last], id));
  }

  /** The row is as the histories say, and no token is on record for an account that does not exist. */
  ghost predicate Told(trace: seq<Proxy>, steps: seq<Step>, id: Identity)
    requires |trace| == |steps| + 1
  {
    if id in trace[|steps|].rows then LastWritten(trace, steps, id, trace[|steps|].rows[id])
    else Else(Latest(TokenWrites(trace, steps, id)), None) == None
  }

  lemma NextIsTold(trace: seq<Proxy>, steps: seq<Step>, id: Identity)
    requires |trace| == |steps| + 1 && |steps| > 0 && Told(trace[..|steps|], steps[..|steps| - 1], id)
    requires var s, step, t := trace[|steps| - 1], steps[|steps| - 1], trace[|steps|];
      Written(s, step, t, id) && (id !in t.rows ==> Dropped(s, step, id))
    ensures Told(trace, steps, id)
  {
    OneMoreWrite(trace, steps, id);
    OneMoreName(trace, steps, id);
  }

  predicate IsStep(s: Proxy, step: Step, t: Proxy) {
    Enabled(s, step) && t == Apply(s, step)
  }

  lemma StepIsTold(s: Proxy, step: Step, t: Proxy, id: Identity)
    requires IsStep(s, step, t)
    ensures Written(s, step, t, id) && (id !in t.rows ==> Dropped(s, step, id))
  {
    StepWrites(s, step, id);
    RowsComeAndGo(s, step, id);
  }

  /** Over every run, each field of a row is what its last writer wrote. */
  lemma {:induction false} FieldsAreLastWritten(trace: seq<Proxy>, steps: seq<Step>, id: Identity)
    requires IsRun(trace, steps)
    ensures Told(trace, steps, id)
    decreases |steps|
  {
    if |steps| > 0 {
      var last := |steps| - 1;
      assert IsStep(trace[last], steps[last], trace[|steps|]);
      FieldsAreLastWritten(trace[..|steps|], steps[..last], id);
      StepIsTold(trace[last], steps[last], trace[|steps|], id);
      NextIsTold(trace, steps, id);
    }
  }

  /**
   * Over every run, a save whose attempt the account still awaits stores exactly its token, and the event it appends
   * carries the token the row shows; a known login is replaced only by a given one. Any other save changes nothing.
   */
  lemma SavedTokenIsStored(trace: seq<Proxy>, steps: seq<Step>, i: nat, call: SaveCall)
    requires IsRun(trace, steps) && i < |steps| && steps[i] == SaveCommit(call)
    ensures var s, t, id := trace[i], trace[i + 1], call.identity;
      if Awaits(s, id, call.attempt) then
        && t.log == s.log + [Saved(id, call.attempt, call.token)]
        && t.rows.Keys == s.rows.Keys && (forall other | other in s.rows && other != id :: t.rows[other] == s.rows[other])
        && t.rows[id].token == Some(call.token) && t.rows[id].status == Valid && t.rows[id].attempt == None
        && t.rows[id].ghLogin == (if call.ghLogin.Some? then call.ghLogin else s.rows[id].ghLogin)
        && t.rows[id].enterprise == s.rows[id].enterprise && t.rows[id].ssoUser == s.rows[id].ssoUser
      else t == s
  {
    StepWrites(trace[i], steps[i], call.identity);
  }

  // ---------------------------------------------------------------- what was checked before a handler suspended

  /** What the handler of a retry found before it asked for the password. */
  predicate WasAuthorizable(s: Proxy, call: PrepareCall) {
    && call.identity in s.rows
    && var row := s.rows[call.identity];
      && row.enterprise == call.enterprise && row.ssoUser == call.ssoUser && row.ghLogin == Some(call.ghLogin)
      && row.status != Valid && row.attempt == call.previous && (call.defaultPassword ==> call.customSso)
  }

  /** Every suspended retry found its account, in its enterprise, as it was asked to, at some earlier moment of the run. */
  lemma {:induction false} SuspendedRetryWasChecked(trace: seq<Proxy>, steps: seq<Step>, call: PrepareCall)
    requires IsRun(trace, steps) && call in trace[|steps|].preparing
    ensures exists j | 0 <= j < |steps| :: steps[j] == PrepareCheck(call) && WasAuthorizable(trace[j], call)
    decreases |steps|
  {
    if |steps| > 0 {
      var last := |steps| - 1;
      if call in trace[last].preparing {
        SuspendedRetryWasChecked(trace[..|steps|], steps[..last], call);
        var j :| 0 <= j < last && steps[..last][j] == PrepareCheck(call) && WasAuthorizable(trace[..|steps|][j], call);
        assert steps[j] == PrepareCheck(call) && WasAuthorizable(trace[j], call);
      } else {
        assert steps[last] == PrepareCheck(call) && WasAuthorizable(trace[last], call);
      }
    }
  }

  /** Every suspended save found its attempt in charge of an account of its enterprise at some earlier moment of the run. */
  lemma {:induction false} SuspendedSaveWasChecked(trace: seq<Proxy>, steps: seq<Step>, call: SaveCall)
    requires IsRun(trace, steps) && call in trace[|steps|].saving
    ensures exists j | 0 <= j < |steps| ::
      steps[j] == SaveCheck(call) && Awaits(trace[j], call.identity, call.attempt) && trace[j].rows[call.identity].enterprise == call.enterprise
    decreases |steps|
  {
    if |steps| > 0 {
      var last := |steps| - 1;
      if call in trace[last].saving {
        SuspendedSaveWasChecked(trace[..|steps|], steps[..last], call);
        var j :| 0 <= j < last && steps[..last][j] == SaveCheck(call) && Awaits(trace[..|steps|][j], call.identity, call.attempt)
          && trace[..|steps|][j].rows[call.identity].enterprise == call.enterprise;
        assert steps[j] == SaveCheck(call) && Awaits(trace[j], call.identity, call.attempt);
      } else {
        assert steps[last] == SaveCheck(call) && Awaits(trace[last], call.identity, call.attempt);
      }
    }
  }
}
