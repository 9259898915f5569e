/**
 * The multi-enterprise upgrade of a MySQL database. DDL commits by itself, so the process may die between any two
 * statements; each statement is guarded by a look at the schema, and a step is recorded after its last statement. A
 * statement that fails stops the run as a crash at that boundary does.
 */
module MysqlMigration {
  import opened Common

  const Default := EnterpriseId("default")

  datatype TableName = ProxyAccounts | ProxyIdentityInitializations | ProxyRequestStats | UserPoolAccounts | UserPoolEvents

  datatype KeyName = KeyName(name: string)

  /** The `enterprise_id` column: whether NULL is allowed, and its default. */
  datatype Column = Column(nullable: bool, fallback: Option<EnterpriseId>)

  /** `rows` holds the enterprise of each row: None where the column is NULL or missing. */
  datatype Table = Table(column: Option<Column>, keys: set<KeyName>, foreign: set<KeyName>, rows: map<string, Option<EnterpriseId>>)

  /** `enterprises` is the registry table with the fingerprint of each row, None before it is created. */
  datatype Db = Db(enterprises: Option<map<EnterpriseId, string>>, tables: map<TableName, Table>, recorded: set<string>)

  /** What a foreign key refers to: the registry of enterprises, or the unique key of the accounts. */
  datatype Parent = Registry | AccountKey

  const AccountIdentityKey := KeyName("uq_proxy_accounts_identity_enterprise")

  datatype Change =
    | CreateEnterprises
    | SeedDefault
    | AddEnterpriseColumn(table: TableName, nullable: bool)
    | DropTemporaryDefault(table: TableName)
    | AddKey(table: TableName, key: KeyName)
    | AddForeignKey(table: TableName, key: KeyName, parent: Parent)
    | Backfill(table: TableName)

  datatype Step = Step(id: string, changes: seq<Change>)

  // ---------------------------------------------------------------- guards and statements

  predicate HasColumn(db: Db, table: TableName) {
    table in db.tables && db.tables[table].column.Some?
  }

  predicate IsApplied(db: Db, change: Change) {
    match change
    case CreateEnterprises => db.enterprises.Some?
    case SeedDefault => db.enterprises.Some? && Default in db.enterprises.value
    case AddEnterpriseColumn(table, _) => HasColumn(db, table)
    case DropTemporaryDefault(table) => HasColumn(db, table) && db.tables[table].column.value.fallback.None?
    case AddKey(table, key) => table in db.tables && key in db.tables[table].keys
    case AddForeignKey(table, key, _) => table in db.tables && key in db.tables[table].foreign
    case Backfill(table) => HasColumn(db, table) && None !in db.tables[table].rows.Values
  }

  function OnTable(db: Db, table: TableName, t: Table): Db {
    db.(tables := db.tables[table := t])
  }

  /** Existing rows take the temporary default; a nullable column starts as NULL. */
  function WithColumn(t: Table, nullable: bool): Table {
    t.(column := Some(Column(nullable, if nullable then None else Some(Default))),
       rows := map id | id in t.rows :: if nullable then None else Some(Default))
  }

  function Filled(rows: map<string, Option<EnterpriseId>>): map<string, Option<EnterpriseId>> {
    map id | id in rows :: if rows[id].None? then Some(Default) else rows[id]
  }

  function Execute(db: Db, change: Change): Db {
    match change
    case CreateEnterprises => db.(enterprises := Some(map[]))
    case SeedDefault =>
      if db.enterprises.Some? && Default !in db.enterprises.value then db.(enterprises := Some(db.enterprises.value[Default := ""])) else db
    case AddEnterpriseColumn(table, nullable) => if table in db.tables then OnTable(db, table, WithColumn(db.tables[table], nullable)) else db
    case DropTemporaryDefault(table) =>
      if HasColumn(db, table)
      then OnTable(db, table, db.tables[table].(column := Some(db.tables[table].column.value.(fallback := None)))) else db
    case AddKey(table, key) =>
      if table in db.tables then OnTable(db, table, db.tables[table].(keys := db.tables[table].keys + {key})) else db
    case AddForeignKey(table, key, _) =>
      if table in db.tables then OnTable(db, table, db.tables[table].(foreign := db.tables[table].foreign + {key})) else db
    case Backfill(table) =>
      if HasColumn(db, table) then OnTable(db, table, db.tables[table].(rows := Filled(db.tables[table].rows))) else db
  }

  function Apply(db: Db, change: Change): Db {
    if IsApplied(db, change) then db else Execute(db, change)
  }

  // ---------------------------------------------------------------- runs

  datatype Action = Change(change: Change) | Record(id: string)

  predicate IsDone(db: Db, action: Action) {
    match action
    case Change(change) => IsApplied(db, change)
    case Record(id) => id in db.recorded
  }

  function Perform(db: Db, action: Action): Db {
    match action
    case Change(change) => Apply(db, change)
    case Record(id) => db.(recorded := db.recorded + {id})
  }

  function Changes(changes: seq<Change>): seq<Action> {
    if changes == [] then [] else Changes(changes[..|changes| - 1]) + [Change(changes[|changes| - 1])]
  }

  /** What a process sets out to do when it finds these steps recorded. */
  function Plan(steps: seq<Step>, recorded: set<string>): seq<Action> {
    if steps == [] then []
    else if steps[0].id in recorded then Plan(steps[1..], recorded)
    else Changes(steps[0].changes) + [Record(steps[0].id)] + Plan(steps[1..], recorded)
  }

  function Run(db: Db, actions: seq<Action>): Db {
    if actions == [] then db else Perform(Run(db, actions[..|actions| - 1]), actions[|actions| - 1])
  }

  function Uninterrupted(db: Db, steps: seq<Step>): Db {
    Run(db, Plan(steps, db.recorded))
  }

  /** The process dies after `k` actions of its plan. */
  function Crashed(db: Db, steps: seq<Step>, k: nat): Db {
    var plan := Plan(steps, db.recorded);
    Run(db, if k < |plan| then plan[..k] else plan)
  }

  /** One process after the other dies, then one completes. */
  function Restarted(db: Db, steps: seq<Step>, crashes: seq<nat>): Db
    decreases |crashes|
  {
    if crashes == [] then Uninterrupted(db, steps) else Restarted(Crashed(db, steps, crashes[0]), steps, crashes[1..])
  }

  // ---------------------------------------------------------------- one action

  /** The rows of a new foreign key have something to refer to. */
  predicate HasParent(db: Db, parent: Parent) {
    match parent
    case Registry => IsApplied(db, SeedDefault)
    case AccountKey => IsApplied(db, AddKey(ProxyAccounts, AccountIdentityKey))
  }

  /** What a statement needs to run: keys are over the enterprise column, and a foreign key needs what it refers to. */
  predicate Ready(db: Db, action: Action) {
    match action
    case Record(_) => true
    case Change(change) =>
      match change
      case CreateEnterprises => true
      case SeedDefault => db.enterprises.Some?
      case AddEnterpriseColumn(table, _) => table in db.tables
      case DropTemporaryDefault(table) => HasColumn(db, table)
      case AddKey(table, _) => HasColumn(db, table)
      case AddForeignKey(table, _, parent) => HasColumn(db, table) && HasParent(db, parent)
      case Backfill(table) => HasColumn(db, table)
  }

  lemma PerformedIsDone(db: Db, action: Action)
    requires Ready(db, action)
    ensures IsDone(Perform(db, action), action)
  {
    if action.Change? && action.change.Backfill? && !IsApplied(db, action.change) {
      var rows := Filled(db.tables[action.change.table].rows);
      assert None !in rows.Values;
    }
  }

  /** No action undoes another: what is done stays done. */
  lemma DoneStaysDone(db: Db, action: Action, done: Action)
    requires IsDone(db, done)
    ensures IsDone(Perform(db, action), done)
  {
    if done.Change? && done.change.Backfill? && action == Change(Backfill(done.change.table)) {
      assert Perform(db, action) == db;
    }
  }

  lemma DoneIsNoOp(db: Db, action: Action)
    requires IsDone(db, action)
    ensures Perform(db, action) == db
  {
    if action.Record? { assert db.recorded + {action.id} == db.recorded; }
  }

  // ---------------------------------------------------------------- sequences of actions

  /** Every statement finds what it needs when its turn comes. */
  predicate Succeeds(db: Db, actions: seq<Action>) {
    actions == [] ||
      var front, last := actions[..|actions| - 1], actions[|actions| - 1];
      Succeeds(db, front) && (IsDone(Run(db, front), last) || Ready(Run(db, front), last))
  }

  lemma {:induction false} RunConcat(db: Db, a: seq<Action>, b: seq<Action>)
    ensures Run(db, a + b) == Run(Run(db, a), b)
    ensures Succeeds(db, a + b) <==> Succeeds(db, a) && Succeeds(Run(db, a), b)
    decreases |b|
  {
    if b == [] {
      assert a + b == a;
    } else {
      var front := b[..|b| - 1];
      RunConcat(db, a, front);
      assert (a + b)[..|a + b| - 1] == a + front && (a + b)[|a + b| - 1] == b[|b| - 1];
    }
  }

  lemma {:induction false} RunIsDone(db: Db, actions: seq<Action>, i: nat)
    requires Succeeds(db, actions) && i < |actions|
    ensures IsDone(Run(db, actions), actions[i])
  {
    var front, last := actions[..|actions| - 1], actions[|actions| - 1];
    if i < |front| {
      RunIsDone(db, front, i);
      assert front[i] == actions[i];
      DoneStaysDone(Run(db, front), last, actions[i]);
    } else if IsDone(Run(db, front), last) {
      DoneIsNoOp(Run(db, front), last);
    } else {
      PerformedIsDone(Run(db, front), last);
    }
  }

  lemma {:induction false} DoneRunIsNoOp(db: Db, actions: seq<Action>)
    requires forall i | 0 <= i < |actions| :: IsDone(db, actions[i])
    ensures Run(db, actions) == db && Succeeds(db, actions)
  {
    if actions != [] {
      DoneRunIsNoOp(db, actions[..|actions| - 1]);
      DoneIsNoOp(db, actions[|actions| - 1]);
    }
  }

  /** Repeating the tail of what was already performed changes nothing, wherever it was cut. */
  lemma ResumeFrom(db: Db, plan: seq<Action>, j: nat, k: nat)
    requires j <= k <= |plan| && Succeeds(db, plan)
    ensures Run(Run(db, plan[..k]), plan[j..]) == Run(db, plan)
    ensures Succeeds(Run(db, plan[..k]), plan[j..])
  {
    var reached := Run(db, plan[..k]);
    assert plan == plan[..k] + plan[k..] && plan[j..] == plan[j..k] + plan[k..];
    RunConcat(db, plan[..k], plan[k..]);
    forall i | 0 <= i < |plan[j..k]| ensures IsDone(reached, plan[j..k][i]) {
      RunIsDone(db, plan[..k], j + i);
      assert plan[..k][j + i] == plan[j..k][i];
    }
    DoneRunIsNoOp(reached, plan[j..k]);
    RunConcat(reached, plan[j..k], plan[k..]);
  }

  // ---------------------------------------------------------------- the plan of a restarted process

  predicate DistinctIds(steps: seq<Step>) {
    forall i, j | 0 <= i < j < |steps| :: steps[i].id != steps[j].id
  }

  function RecordedIn(actions: seq<Action>): set<string> {
    set a | a in actions && a.Record? :: a.id
  }

  lemma {:induction false} ChangesRecordNothing(changes: seq<Change>)
    ensures |Changes(changes)| == |changes| && forall a | a in Changes(changes) :: a.Change?
  {
    if changes != [] { ChangesRecordNothing(changes[..|changes| - 1]); }
  }

  lemma {:induction false} RunRecords(db: Db, actions: seq<Action>)
    ensures Run(db, actions).recorded == db.recorded + RecordedIn(actions)
  {
    if actions != [] {
      var front, last := actions[..|actions| - 1], actions[|actions| - 1];
      RunRecords(db, front);
      assert actions == front + [last];
      assert RecordedIn(actions) == RecordedIn(front) + if last.Record? then {last.id} else {};
    }
  }

  lemma {:induction false} PlanIgnores(steps: seq<Step>, recorded: set<string>, id: string)
    requires forall i | 0 <= i < |steps| :: steps[i].id != id
    ensures Plan(steps, recorded + {id}) == Plan(steps, recorded)
  {
    if steps != [] { PlanIgnores(steps[1..], recorded, id); }
  }

  /** Cut inside its first step, a plan has recorded nothing. */
  lemma CutInsideStep(step: Step, rest: seq<Action>, k: nat)
    requires k < |Changes(step.changes)| + 1
    ensures RecordedIn((Changes(step.changes) + [Record(step.id)] + rest)[..k]) == {}
  {
    var changes := Changes(step.changes);
    ChangesRecordNothing(step.changes);
    assert (changes + [Record(step.id)] + rest)[..k] == changes[..k];
    forall a | a in changes[..k] ensures a.Change? { assert a in changes; }
  }

  /** A restarted process starts over at the first step that was not recorded. */
  lemma {:induction false} RestartedPlan(steps: seq<Step>, recorded: set<string>, k: nat) returns (j: nat)
    requires DistinctIds(steps) && k <= |Plan(steps, recorded)|
    ensures j <= k && Plan(steps, recorded + RecordedIn(Plan(steps, recorded)[..k])) == Plan(steps, recorded)[j..]
    decreases |steps|, 1
  {
    if steps == [] {
      j := 0;
    } else if steps[0].id in recorded {
      j := RestartedPlan(steps[1..], recorded, k);
    } else if k < |Changes(steps[0].changes)| + 1 {
      CutInsideStep(steps[0], Plan(steps[1..], recorded), k);
      assert recorded + {} == recorded;
      j := 0;
    } else {
      j := RestartedBehind(steps, recorded, k, |Changes(steps[0].changes)| + 1);
    }
  }

  lemma {:induction false} RestartedBehind(steps: seq<Step>, recorded: set<string>, k: nat, n: nat) returns (j: nat)
    requires DistinctIds(steps) && steps != [] && steps[0].id !in recorded && n == |Changes(steps[0].changes)| + 1
    requires n <= k <= |Plan(steps, recorded)|
    ensures j <= k && Plan(steps, recorded + RecordedIn(Plan(steps, recorded)[..k])) == Plan(steps, recorded)[j..]
    decreases |steps|, 0
  {
    var plan, rest := Plan(steps, recorded), Plan(steps[1..], recorded);
    var later := RestartedPlan(steps[1..], recorded, k - n);
    BlockRecorded(steps[0], recorded, rest, plan, k);
    PlanIgnores(steps[1..], recorded + RecordedIn(rest[..k - n]), steps[0].id);
    j := n + later;
    assert plan[n..] == rest && plan[j..] == rest[later..];
  }

  lemma BlockRecorded(step: Step, recorded: set<string>, rest: seq<Action>, plan: seq<Action>, k: nat)
    requires plan == Changes(step.changes) + [Record(step.id)] + rest && |Changes(step.changes)| + 1 <= k <= |plan|
    ensures var n := |Changes(step.changes)| + 1;
      recorded + RecordedIn(plan[..k]) == recorded + RecordedIn(rest[..k - n]) + {step.id}
  {
    var changes := Changes(step.changes);
    ChangesRecordNothing(step.changes);
    var n := |changes| + 1;
    assert plan[..k] == changes + [Record(step.id)] + rest[..k - n];
    assert Record(step.id) in plan[..k];
    forall a ensures a in plan[..k] && a.Record? <==> a == Record(step.id) || (a in rest[..k - n] && a.Record?) {}
  }

  // ---------------------------------------------------------------- theorems

  /** One crash, wherever it falls, costs nothing but repetition. */
  lemma CrashIsHarmless(db: Db, steps: seq<Step>, k: nat)
    requires DistinctIds(steps) && Succeeds(db, Plan(steps, db.recorded))
    ensures var reached := Crashed(db, steps, k);
      && Succeeds(reached, Plan(steps, reached.recorded))
      && Uninterrupted(reached, steps) == Uninterrupted(db, steps)
  {
    var plan := Plan(steps, db.recorded);
    var cut := if k < |plan| then k else |plan|;
    assert plan[..|plan|] == plan;
    RunRecords(db, plan[..cut]);
    var j := RestartedPlan(steps, db.recorded, cut);
    ResumeFrom(db, plan, j, cut);
  }

  /**
   * After any number of crashes at any statement boundaries, a completed run leaves the database exactly as one
   * uninterrupted run would have: columns, defaults, keys, rows and recorded steps.
   */
  lemma {:induction false} RestartsReachTheSameDatabase(db: Db, steps: seq<Step>, crashes: seq<nat>)
    requires DistinctIds(steps) && Succeeds(db, Plan(steps, db.recorded))
    ensures Restarted(db, steps, crashes) == Uninterrupted(db, steps)
    decreases |crashes|
  {
    if crashes != [] {
      CrashIsHarmless(db, steps, crashes[0]);
      RestartsReachTheSameDatabase(Crashed(db, steps, crashes[0]), steps, crashes[1..]);
    }
  }

  // ---------------------------------------------------------------- a step is recorded only when all of it holds

  ghost predicate AllApplied(db: Db, changes: seq<Change>) {
    forall i | 0 <= i < |changes| :: IsApplied(db, changes[i])
  }

  ghost predicate RecordedHold(db: Db, steps: seq<Step>, recorded: set<string>) {
    forall i | 0 <= i < |steps| && steps[i].id in recorded :: AllApplied(db, steps[i].changes)
  }

  lemma {:induction false} ChangesAt(changes: seq<Change>, i: nat)
    requires i < |changes|
    ensures |Changes(changes)| == |changes| && Changes(changes)[i] == Change(changes[i])
  {
    ChangesRecordNothing(changes);
    ChangesRecordNothing(changes[..|changes| - 1]);
    if i < |changes| - 1 { ChangesAt(changes[..|changes| - 1], i); }
  }

  /** In a plan, the record of a step comes after all of its changes. */
  lemma {:induction false} RecordComesLast(steps: seq<Step>, recorded: set<string>, k: nat, i: nat, m: nat)
    requires DistinctIds(steps) && k <= |Plan(steps, recorded)| && i < |steps| && m < |steps[i].changes|
    requires steps[i].id in RecordedIn(Plan(steps, recorded)[..k])
    ensures Change(steps[i].changes[m]) in Plan(steps, recorded)[..k]
    decreases |steps|
  {
    var plan := Plan(steps, recorded);
    if steps[0].id in recorded {
      if i == 0 { PlanSkips(steps[1..], recorded, steps[0].id); assert false; }
      RecordComesLast(steps[1..], recorded, k, i - 1, m);
    } else {
      var changes := Changes(steps[0].changes);
      ChangesRecordNothing(steps[0].changes);
      var n := |changes| + 1;
      if k < n {
        assert plan[..k] == changes[..k];
        forall a | a in changes[..k] ensures a.Change? { assert a in changes; }
        assert false;
      } else if i == 0 {
        ChangesAt(steps[0].changes, m);
        assert plan[..k][m] == Change(steps[0].changes[m]);
      } else {
        var rest := Plan(steps[1..], recorded);
        assert plan[..k] == changes + [Record(steps[0].id)] + rest[..k - n];
        assert Record(steps[i].id) in rest[..k - n];
        RecordComesLast(steps[1..], recorded, k - n, i - 1, m);
      }
    }
  }

  /** A plan records neither what is recorded already nor a step it does not contain. */
  lemma {:induction false} PlanSkips(steps: seq<Step>, recorded: set<string>, id: string)
    requires id in recorded || forall i | 0 <= i < |steps| :: steps[i].id != id
    ensures Record(id) !in Plan(steps, recorded)
  {
    if steps != [] {
      ChangesRecordNothing(steps[0].changes);
      PlanSkips(steps[1..], recorded, id);
    }
  }

  lemma {:induction false} DoneSurvives(db: Db, actions: seq<Action>, done: Action)
    requires IsDone(db, done)
    ensures IsDone(Run(db, actions), done)
  {
    if actions != [] {
      DoneSurvives(db, actions[..|actions| - 1], done);
      DoneStaysDone(Run(db, actions[..|actions| - 1]), actions[|actions| - 1], done);
    }
  }

  lemma {:induction false} SucceedsPrefix(db: Db, actions: seq<Action>, k: nat)
    requires Succeeds(db, actions) && k <= |actions|
    ensures Succeeds(db, actions[..k])
  {
    assert actions == actions[..k] + actions[k..];
    RunConcat(db, actions[..k], actions[k..]);
  }

  /** Wherever a run is cut, every recorded step has all of its changes in place. */
  lemma RecordedStepsHold(db: Db, steps: seq<Step>, k: nat)
    requires DistinctIds(steps) && Succeeds(db, Plan(steps, db.recorded)) && RecordedHold(db, steps, db.recorded)
    ensures var reached := Crashed(db, steps, k); RecordedHold(reached, steps, reached.recorded)
  {
    var plan := Plan(steps, db.recorded);
    var cut := if k < |plan| then k else |plan|;
    assert plan[..|plan|] == plan;
    var reached := Run(db, plan[..cut]);
    RunRecords(db, plan[..cut]);
    SucceedsPrefix(db, plan, cut);
    forall i | 0 <= i < |steps| && steps[i].id in reached.recorded ensures AllApplied(reached, steps[i].changes) {
      forall m | 0 <= m < |steps[i].changes| ensures IsApplied(reached, steps[i].changes[m]) {
        var change := Change(steps[i].changes[m]);
        if steps[i].id in db.recorded {
          assert AllApplied(db, steps[i].changes) && IsDone(db, change);
          DoneSurvives(db, plan[..cut], change);
        } else {
          RecordComesLast(steps, db.recorded, cut, i, m);
          var at :| 0 <= at < |plan[..cut]| && plan[..cut][at] == change;
          RunIsDone(db, plan[..cut], at);
        }
      }
    }
  }

  // ---------------------------------------------------------------- the steps of the upgrade

  const BaseSteps: seq<Step> := [
    Step("enterprise-v1/01-create-proxy-enterprises", [CreateEnterprises]),
    Step("enterprise-v1/02-seed-default", [SeedDefault]),
    Step("enterprise-v1/03-accounts-enterprise", [
      AddEnterpriseColumn(ProxyAccounts, false),
      AddKey(ProxyAccounts, AccountIdentityKey),
      AddKey(ProxyAccounts, KeyName("idx_proxy_accounts_enterprise_updated")),
      AddForeignKey(ProxyAccounts, KeyName("fk_proxy_accounts_enterprise"), Registry)]),
    Step("enterprise-v1/04-accounts-guards", [DropTemporaryDefault(ProxyAccounts)]),
    Step("enterprise-v1/05-initializations-and-stats", [
      AddEnterpriseColumn(ProxyIdentityInitializations, false),
      AddKey(ProxyIdentityInitializations, KeyName("idx_proxy_identity_initializations_enterprise")),
      DropTemporaryDefault(ProxyIdentityInitializations),
      AddEnterpriseColumn(ProxyRequestStats, false),
      AddKey(ProxyRequestStats, KeyName("idx_proxy_request_stats_enterprise_time")),
      DropTemporaryDefault(ProxyRequestStats)])]

  const PoolSteps: seq<Step> := [
    Step("enterprise-v1/06-pool-accounts", [
      AddEnterpriseColumn(UserPoolAccounts, false),
      AddKey(UserPoolAccounts, KeyName("idx_user_pool_accounts_enterprise_state")),
      AddKey(UserPoolAccounts, KeyName("idx_user_pool_accounts_member_enterprise")),
      AddForeignKey(UserPoolAccounts, KeyName("fk_user_pool_account_enterprise"), AccountKey),
      DropTemporaryDefault(UserPoolAccounts)]),
    Step("enterprise-v1/07-pool-events", [
      AddEnterpriseColumn(UserPoolEvents, true),
      Backfill(UserPoolEvents),
      AddKey(UserPoolEvents, KeyName("idx_user_pool_events_enterprise"))])]

  predicate Adds(before: set<Change>, earlier: seq<Change>, c: Change) {
    c in before || c in earlier
  }

  predicate AddsColumn(before: set<Change>, earlier: seq<Change>, table: TableName) {
    Adds(before, earlier, AddEnterpriseColumn(table, false)) || Adds(before, earlier, AddEnterpriseColumn(table, true))
  }

  /** What `c` changes is created before it. */
  predicate Provided(before: set<Change>, earlier: seq<Change>, c: Change) {
    match c
    case SeedDefault => Adds(before, earlier, CreateEnterprises)
    case DropTemporaryDefault(table) => AddsColumn(before, earlier, table)
    case AddKey(table, _) => AddsColumn(before, earlier, table)
    case AddForeignKey(table, _, parent) => AddsColumn(before, earlier, table) && Adds(before, earlier, Referred(parent))
    case Backfill(table) => AddsColumn(before, earlier, table)
    case _ => true
  }

  function Referred(parent: Parent): Change {
    match parent
    case Registry => SeedDefault
    case AccountKey => AddKey(ProxyAccounts, AccountIdentityKey)
  }

  predicate ChangesOrdered(before: set<Change>, changes: seq<Change>) {
    forall m | 0 <= m < |changes| :: Provided(before, changes[..m], changes[m])
  }

  function Also(before: set<Change>, changes: seq<Change>): set<Change> {
    before + set c | c in changes
  }

  predicate StepsOrdered(before: set<Change>, steps: seq<Step>)
    decreases |steps|
  {
    steps == [] || (ChangesOrdered(before, steps[0].changes) && StepsOrdered(Also(before, steps[0].changes), steps[1..]))
  }

  ghost predicate TablesExist(db: Db) {
    forall table: TableName :: table in db.tables
  }

  lemma {:induction false} RunKeepsTables(db: Db, actions: seq<Action>)
    ensures Run(db, actions).tables.Keys == db.tables.Keys
  {
    if actions != [] { RunKeepsTables(db, actions[..|actions| - 1]); }
  }

  ghost predicate Applied(db: Db, before: set<Change>) {
    forall c | c in before :: IsApplied(db, c)
  }

  lemma ProvidedIsReady(db: Db, before: set<Change>, earlier: seq<Change>, c: Change)
    requires TablesExist(db) && Applied(db, before) && AllApplied(db, earlier) && Provided(before, earlier, c)
    ensures Ready(db, Change(c))
  {
  }

  lemma {:induction false} AppliedSurvives(db: Db, actions: seq<Action>, before: set<Change>)
    requires Applied(db, before)
    ensures Applied(Run(db, actions), before)
  {
    forall c | c in before ensures IsApplied(Run(db, actions), c) { DoneSurvives(db, actions, Change(c)); }
  }

  lemma {:induction false} AllAppliedSurvives(db: Db, actions: seq<Action>, changes: seq<Change>)
    requires AllApplied(db, changes)
    ensures AllApplied(Run(db, actions), changes)
  {
    forall i | 0 <= i < |changes| ensures IsApplied(Run(db, actions), changes[i]) { DoneSurvives(db, actions, Change(changes[i])); }
  }

  lemma ChangesSnoc(changes: seq<Change>, n: nat)
    requires n < |changes|
    ensures changes[..n + 1] == changes[..n] + [changes[n]] && Changes(changes[..n + 1]) == Changes(changes[..n]) + [Change(changes[n])]
  {
    assert changes[..n + 1][..n] == changes[..n];
  }

  lemma RunSnoc(db: Db, actions: seq<Action>, action: Action)
    ensures Run(db, actions + [action]) == Perform(Run(db, actions), action)
    ensures Succeeds(db, actions) && Ready(Run(db, actions), action) ==> Succeeds(db, actions + [action])
  {
    assert (actions + [action])[..|actions|] == actions;
  }

  lemma {:induction false} ChangesSucceed(db: Db, before: set<Change>, changes: seq<Change>, n: nat)
    requires TablesExist(db) && Applied(db, before) && ChangesOrdered(before, changes) && n <= |changes|
    ensures Succeeds(db, Changes(changes[..n])) && AllApplied(Run(db, Changes(changes[..n])), changes[..n])
    decreases n
  {
    if n > 0 {
      ChangesSucceed(db, before, changes, n - 1);
      var front, c := Changes(changes[..n - 1]), changes[n - 1];
      RunKeepsTables(db, front);
      AppliedSurvives(db, front, before);
      assert Provided(before, changes[..n - 1], c);
      ProvidedIsReady(Run(db, front), before, changes[..n - 1], c);
      ChangesSnoc(changes, n - 1);
      RunSnoc(db, front, Change(c));
      OneMoreApplied(Run(db, front), changes[..n - 1], c);
    }
  }

  lemma OneMoreApplied(db: Db, changes: seq<Change>, c: Change)
    requires AllApplied(db, changes) && Ready(db, Change(c))
    ensures AllApplied(Perform(db, Change(c)), changes + [c])
  {
    PerformedIsDone(db, Change(c));
    forall i | 0 <= i < |changes| ensures IsApplied(Perform(db, Change(c)), changes[i]) {
      DoneStaysDone(db, Change(c), Change(changes[i]));
    }
  }

  /** A step that is not recorded yet runs through and is recorded; what held before still holds. */
  lemma StepSucceeds(db: Db, before: set<Change>, step: Step)
    requires TablesExist(db) && Applied(db, before) && ChangesOrdered(before, step.changes)
    ensures var block := Changes(step.changes) + [Record(step.id)];
      Succeeds(db, block) && TablesExist(Run(db, block)) && Applied(Run(db, block), Also(before, step.changes))
  {
    var changes, done := step.changes, Changes(step.changes);
    var block := done + [Record(step.id)];
    ChangesSucceed(db, before, changes, |changes|);
    assert changes[..|changes|] == changes;
    RunConcat(db, done, [Record(step.id)]);
    AppliedSurvives(db, block, before);
    AllAppliedSurvives(Run(db, done), [Record(step.id)], changes);
    RunKeepsTables(db, block);
  }

  /** Steps whose changes come after what they need run through, whichever of them were recorded before. */
  lemma {:induction false} OrderedStepsSucceed(db: Db, before: set<Change>, steps: seq<Step>, recorded: set<string>)
    requires TablesExist(db) && Applied(db, before) && StepsOrdered(before, steps) && RecordedHold(db, steps, recorded)
    ensures Succeeds(db, Plan(steps, recorded))
    decreases |steps|
  {
    if steps != [] {
      var changes, rest := steps[0].changes, steps[1..];
      if steps[0].id in recorded {
        assert AllApplied(db, changes);
        OrderedStepsSucceed(db, Also(before, changes), rest, recorded);
      } else {
        var block := Changes(changes) + [Record(steps[0].id)];
        StepSucceeds(db, before, steps[0]);
        forall i | 0 <= i < |rest| && rest[i].id in recorded ensures AllApplied(Run(db, block), rest[i].changes) {
          assert steps[i + 1] == rest[i];
          AllAppliedSurvives(db, block, rest[i].changes);
        }
        OrderedStepsSucceed(Run(db, block), Also(before, changes), rest, recorded);
        RunConcat(db, block, Plan(rest, recorded));
      }
    }
  }

  /** A column added first serves every later change of the step. */
  lemma ColumnComesFirst(before: set<Change>, changes: seq<Change>, n: nat, table: TableName, m: nat)
    requires n < m <= |changes| && changes[n].AddEnterpriseColumn? && changes[n].table == table
    ensures AddsColumn(before, changes[..m], table)
  {
    assert changes[..m][n] == changes[n];
  }

  lemma AccountStepOrdered(before: set<Change>)
    requires SeedDefault in before
    ensures ChangesOrdered(before, BaseSteps[2].changes)
  {
    var changes := BaseSteps[2].changes;
    forall m | 0 <= m < |changes| ensures Provided(before, changes[..m], changes[m]) {
      if m > 0 { ColumnComesFirst(before, changes, 0, ProxyAccounts, m); }
    }
  }

  lemma StatsStepOrdered(before: set<Change>)
    ensures ChangesOrdered(before, BaseSteps[4].changes)
  {
    var changes := BaseSteps[4].changes;
    forall m | 0 <= m < |changes| ensures Provided(before, changes[..m], changes[m]) {
      if m > 0 { ColumnComesFirst(before, changes, 0, ProxyIdentityInitializations, m); }
      if m > 3 { ColumnComesFirst(before, changes, 3, ProxyRequestStats, m); }
    }
  }

  lemma BaseStepsOrdered()
    ensures StepsOrdered({}, BaseSteps)
  {
    var b1 := Also({}, BaseSteps[0].changes);
    var b2 := Also(b1, BaseSteps[1].changes);
    var b3 := Also(b2, BaseSteps[2].changes);
    var b4 := Also(b3, BaseSteps[3].changes);
    assert BaseSteps[0].changes[0] == CreateEnterprises && BaseSteps[1].changes[0] == SeedDefault;
    assert BaseSteps[2].changes[0] == AddEnterpriseColumn(ProxyAccounts, false);
    AccountStepOrdered(b2);
    StatsStepOrdered(b4);
    assert ChangesOrdered(b1, BaseSteps[1].changes) && ChangesOrdered(b3, BaseSteps[3].changes);
    BaseStepsChain(b1, b2, b3, b4);
  }

  lemma BaseStepsChain(b1: set<Change>, b2: set<Change>, b3: set<Change>, b4: set<Change>)
    requires b1 == Also({}, BaseSteps[0].changes) && b2 == Also(b1, BaseSteps[1].changes)
    requires b3 == Also(b2, BaseSteps[2].changes) && b4 == Also(b3, BaseSteps[3].changes)
    requires ChangesOrdered({}, BaseSteps[0].changes) && ChangesOrdered(b1, BaseSteps[1].changes) && ChangesOrdered(b2, BaseSteps[2].changes)
    requires ChangesOrdered(b3, BaseSteps[3].changes) && ChangesOrdered(b4, BaseSteps[4].changes)
    ensures StepsOrdered({}, BaseSteps)
  {
    assert StepsOrdered(Also(b4, BaseSteps[4].changes), []);
    assert BaseSteps[4..] == [BaseSteps[4]] && StepsOrdered(b4, BaseSteps[4..]);
    assert BaseSteps[3..][1..] == BaseSteps[4..] && StepsOrdered(b3, BaseSteps[3..]);
    assert BaseSteps[2..][1..] == BaseSteps[3..] && StepsOrdered(b2, BaseSteps[2..]);
    assert BaseSteps[1..][1..] == BaseSteps[2..] && StepsOrdered(b1, BaseSteps[1..]);
  }

  /** The pool steps rely on one change of the base steps, the unique key the members refer to. */
  lemma PoolStepsOrdered()
    ensures StepsOrdered({AddKey(ProxyAccounts, AccountIdentityKey)}, PoolSteps)
  {
    var before := {AddKey(ProxyAccounts, AccountIdentityKey)};
    var b1 := Also(before, PoolSteps[0].changes);
    forall m | 0 <= m < |PoolSteps[0].changes| ensures Provided(before, PoolSteps[0].changes[..m], PoolSteps[0].changes[m]) {
      if m > 0 { ColumnComesFirst(before, PoolSteps[0].changes, 0, UserPoolAccounts, m); }
    }
    forall m | 0 <= m < |PoolSteps[1].changes| ensures Provided(b1, PoolSteps[1].changes[..m], PoolSteps[1].changes[m]) {
      if m > 0 { ColumnComesFirst(b1, PoolSteps[1].changes, 0, UserPoolEvents, m); }
    }
    assert StepsOrdered(Also(b1, PoolSteps[1].changes), []);
    assert PoolSteps[1..] == [PoolSteps[1]] && StepsOrdered(b1, PoolSteps[1..]);
  }

  lemma IdsAreDistinct()
    ensures DistinctIds(BaseSteps) && DistinctIds(PoolSteps)
  {
    assert BaseSteps[0].id[15] == '1' && BaseSteps[1].id[15] == '2' && BaseSteps[2].id[15] == '3';
    assert BaseSteps[3].id[15] == '4' && BaseSteps[4].id[15] == '5';
    assert PoolSteps[0].id[15] == '6' && PoolSteps[1].id[15] == '7';
  }

  /** A completed run has recorded every step, and everything the steps promise holds. */
  lemma CompletedRunHolds(db: Db, steps: seq<Step>)
    requires DistinctIds(steps) && Succeeds(db, Plan(steps, db.recorded)) && RecordedHold(db, steps, db.recorded)
    ensures var final := Uninterrupted(db, steps);
      forall i | 0 <= i < |steps| :: steps[i].id in final.recorded && AllApplied(final, steps[i].changes)
  {
    var plan := Plan(steps, db.recorded);
    assert Crashed(db, steps, |plan|) == Uninterrupted(db, steps);
    RecordedStepsHold(db, steps, |plan|);
    RunRecords(db, plan);
    forall i | 0 <= i < |steps| ensures steps[i].id in Uninterrupted(db, steps).recorded { PlanRecordsAll(steps, db.recorded, i); }
  }

  lemma {:induction false} PlanRecordsAll(steps: seq<Step>, recorded: set<string>, i: nat)
    requires i < |steps|
    ensures steps[i].id in recorded + RecordedIn(Plan(steps, recorded))
  {
    if steps[i].id !in recorded { PlanContainsRecord(steps, recorded, i); }
  }

  lemma {:induction false} PlanContainsRecord(steps: seq<Step>, recorded: set<string>, i: nat)
    requires i < |steps| && steps[i].id !in recorded
    ensures Record(steps[i].id) in Plan(steps, recorded)
  {
    if i > 0 { PlanContainsRecord(steps[1..], recorded, i - 1); }
  }

  /**
   * The upgrade of the base tables, and then of the pool tables, survives any crashes: from any database in which the
   * recorded steps hold, the restarted runs end in the same database, with every change of every step in place.
   */
  lemma UpgradeIsCrashSafe(db: Db, crashes: seq<nat>, poolCrashes: seq<nat>)
    requires TablesExist(db) && RecordedHold(db, BaseSteps, db.recorded) && RecordedHold(db, PoolSteps, db.recorded)
    ensures var base := Restarted(db, BaseSteps, crashes); var final := Restarted(base, PoolSteps, poolCrashes);
      && base == Uninterrupted(db, BaseSteps) && final == Uninterrupted(base, PoolSteps)
      && (forall i | 0 <= i < |BaseSteps| :: BaseSteps[i].id in final.recorded && AllApplied(final, BaseSteps[i].changes))
      && (forall i | 0 <= i < |PoolSteps| :: PoolSteps[i].id in final.recorded && AllApplied(final, PoolSteps[i].changes))
  {
    IdsAreDistinct();
    BaseStepsOrdered();
    OrderedStepsSucceed(db, {}, BaseSteps, db.recorded);
    RestartsReachTheSameDatabase(db, BaseSteps, crashes);
    CompletedRunHolds(db, BaseSteps);
    var base := Uninterrupted(db, BaseSteps);
    PoolTablesFollow(db);
    PoolStepsOrdered();
    assert IsApplied(base, BaseSteps[2].changes[1]);
    OrderedStepsSucceed(base, {AddKey(ProxyAccounts, AccountIdentityKey)}, PoolSteps, base.recorded);
    RestartsReachTheSameDatabase(base, PoolSteps, poolCrashes);
    CompletedRunHolds(base, PoolSteps);
    var plan := Plan(PoolSteps, base.recorded);
    RunRecords(base, plan);
    forall i | 0 <= i < |BaseSteps| ensures AllApplied(Run(base, plan), BaseSteps[i].changes) {
      AllAppliedSurvives(base, plan, BaseSteps[i].changes);
    }
  }

  /** The base run leaves the pool steps as they were. */
  lemma PoolTablesFollow(db: Db)
    requires TablesExist(db) && RecordedHold(db, PoolSteps, db.recorded)
    ensures var base := Uninterrupted(db, BaseSteps); TablesExist(base) && RecordedHold(base, PoolSteps, base.recorded)
  {
    var plan := Plan(BaseSteps, db.recorded);
    RunKeepsTables(db, plan);
    RunRecords(db, plan);
    forall i | 0 <= i < |PoolSteps| && PoolSteps[i].id in Run(db, plan).recorded ensures AllApplied(Run(db, plan), PoolSteps[i].changes) {
      PoolIdIsNotBase(i);
      PlanSkips(BaseSteps, db.recorded, PoolSteps[i].id);
      AllAppliedSurvives(db, plan, PoolSteps[i].changes);
    }
  }

  lemma PoolIdIsNotBase(i: nat)
    requires i < |PoolSteps|
    ensures forall j | 0 <= j < |BaseSteps| :: BaseSteps[j].id != PoolSteps[i].id
  {
    assert BaseSteps[0].id[15] == '1' && BaseSteps[1].id[15] == '2' && BaseSteps[2].id[15] == '3';
    assert BaseSteps[3].id[15] == '4' && BaseSteps[4].id[15] == '5';
    assert PoolSteps[0].id[15] == '6' && PoolSteps[1].id[15] == '7';
  }

  // ---------------------------------------------------------------- rows

  /** Before the upgrade no table has the column. */
  ghost predicate IsLegacy(db: Db) {
    && TablesExist(db) && db.recorded == {}
    && forall table | table in db.tables :: db.tables[table].column.None?
  }

  /** Only the events table takes NULL, which then has no default; elsewhere every row belongs to the default enterprise. */
  predicate TableOk(db: Db, table: TableName) {
    HasColumn(db, table) ==>
      var t := db.tables[table];
      && (forall id | id in t.rows :: t.rows[id] == Some(Default) || (t.rows[id].None? && t.column.value.nullable))
      && (t.column.value.nullable <==> table == UserPoolEvents) && (t.column.value.nullable ==> t.column.value.fallback.None?)
  }

  ghost predicate FitsSchema(action: Action) {
    action.Change? && action.change.AddEnterpriseColumn? ==> (action.change.nullable <==> action.change.table == UserPoolEvents)
  }

  lemma PerformKeepsTableOk(db: Db, action: Action, table: TableName)
    requires TableOk(db, table) && FitsSchema(action)
    ensures TableOk(Perform(db, action), table)
    ensures table in db.tables ==> table in Perform(db, action).tables && Perform(db, action).tables[table].rows.Keys == db.tables[table].rows.Keys
  {
  }

  lemma {:induction false} RunKeepsTableOk(db: Db, actions: seq<Action>, table: TableName)
    requires TableOk(db, table) && forall i | 0 <= i < |actions| :: FitsSchema(actions[i])
    ensures TableOk(Run(db, actions), table)
    ensures table in db.tables ==> table in Run(db, actions).tables && Run(db, actions).tables[table].rows.Keys == db.tables[table].rows.Keys
  {
    if actions != [] {
      RunKeepsTableOk(db, actions[..|actions| - 1], table);
      PerformKeepsTableOk(Run(db, actions[..|actions| - 1]), actions[|actions| - 1], table);
    }
  }

  lemma {:induction false} ChangesFit(changes: seq<Change>)
    requires forall i | 0 <= i < |changes| :: FitsSchema(Change(changes[i]))
    ensures forall i | 0 <= i < |Changes(changes)| :: FitsSchema(Changes(changes)[i])
  {
    if changes != [] { ChangesFit(changes[..|changes| - 1]); }
  }

  lemma {:induction false} PlanFits(steps: seq<Step>, recorded: set<string>)
    requires forall i, m | 0 <= i < |steps| && 0 <= m < |steps[i].changes| :: FitsSchema(Change(steps[i].changes[m]))
    ensures forall i | 0 <= i < |Plan(steps, recorded)| :: FitsSchema(Plan(steps, recorded)[i])
  {
    if steps != [] {
      ChangesFit(steps[0].changes);
      PlanFits(steps[1..], recorded);
    }
  }

  /** After the upgrade of a legacy database every row of every table belongs to the default enterprise. */
  lemma EveryRowIsAssigned(db: Db, crashes: seq<nat>, poolCrashes: seq<nat>, table: TableName)
    requires IsLegacy(db)
    ensures var final := Restarted(Restarted(db, BaseSteps, crashes), PoolSteps, poolCrashes);
      && HasColumn(final, table) && final.tables[table].rows.Keys == db.tables[table].rows.Keys
      && (forall id | id in final.tables[table].rows :: final.tables[table].rows[id] == Some(Default))
      && final.tables[table].column.value.fallback.None?
  {
    UpgradeIsCrashSafe(db, crashes, poolCrashes);
    FinalRows(db, table);
    FinalColumn(Uninterrupted(Uninterrupted(db, BaseSteps), PoolSteps), table);
  }

  lemma FinalRows(db: Db, table: TableName)
    requires IsLegacy(db)
    ensures var final := Uninterrupted(Uninterrupted(db, BaseSteps), PoolSteps);
      TableOk(final, table) && table in final.tables && final.tables[table].rows.Keys == db.tables[table].rows.Keys
  {
    var base := Uninterrupted(db, BaseSteps);
    StepsFit();
    PlanFits(BaseSteps, db.recorded);
    RunKeepsTableOk(db, Plan(BaseSteps, db.recorded), table);
    PlanFits(PoolSteps, base.recorded);
    RunKeepsTableOk(base, Plan(PoolSteps, base.recorded), table);
  }

  lemma StepsFit()
    ensures forall i, m | 0 <= i < |BaseSteps| && 0 <= m < |BaseSteps[i].changes| :: FitsSchema(Change(BaseSteps[i].changes[m]))
    ensures forall i, m | 0 <= i < |PoolSteps| && 0 <= m < |PoolSteps[i].changes| :: FitsSchema(Change(PoolSteps[i].changes[m]))
  {
  }

  lemma FinalColumn(db: Db, table: TableName)
    requires TableOk(db, table)
    requires forall i | 0 <= i < |BaseSteps| :: AllApplied(db, BaseSteps[i].changes)
    requires forall i | 0 <= i < |PoolSteps| :: AllApplied(db, PoolSteps[i].changes)
    ensures HasColumn(db, table) && db.tables[table].column.value.fallback.None?
    ensures forall id | id in db.tables[table].rows :: db.tables[table].rows[id] == Some(Default)
  {
    match table
    case ProxyAccounts => assert IsApplied(db, BaseSteps[3].changes[0]);
    case ProxyIdentityInitializations => assert IsApplied(db, BaseSteps[4].changes[2]);
    case ProxyRequestStats => assert IsApplied(db, BaseSteps[4].changes[5]);
    case UserPoolAccounts => assert IsApplied(db, PoolSteps[0].changes[4]);
    case UserPoolEvents => assert IsApplied(db, PoolSteps[1].changes[0]) && IsApplied(db, PoolSteps[1].changes[1]);
  }

  // ---------------------------------------------------------------- what was there stays

  /** The keys, the assigned rows and the registered enterprises of `db` are all still there. */
  ghost predicate Grows(db: Db, db': Db) {
    && (forall table | table in db.tables :: table in db'.tables && TableGrows(db.tables[table], db'.tables[table]))
    && (db.enterprises.Some? ==>
          && db'.enterprises.Some?
          && forall e | e in db.enterprises.value :: e in db'.enterprises.value && db'.enterprises.value[e] == db.enterprises.value[e])
    && db.recorded <= db'.recorded
  }

  ghost predicate TableGrows(t: Table, t': Table) {
    && t.keys <= t'.keys && t.foreign <= t'.foreign && t'.rows.Keys == t.rows.Keys
    && (t.column.Some? ==> t'.column.Some? && forall id | id in t.rows && t.rows[id].Some? :: t'.rows[id] == t.rows[id])
  }

  lemma PerformGrows(db: Db, action: Action)
    ensures Grows(db, Perform(db, action))
  {
  }

  lemma {:induction false} RunGrows(db: Db, actions: seq<Action>)
    ensures Grows(db, Run(db, actions))
  {
    if actions != [] {
      var front := Run(db, actions[..|actions| - 1]);
      RunGrows(db, actions[..|actions| - 1]);
      PerformGrows(front, actions[|actions| - 1]);
      GrowsOn(db, front, Run(db, actions));
    }
  }

  lemma GrowsOn(a: Db, b: Db, c: Db)
    requires Grows(a, b) && Grows(b, c)
    ensures Grows(a, c)
  {
  }

  /** However often the upgrade is cut and started again, no key, no assigned row and no registered enterprise is lost. */
  lemma {:induction false} UpgradeKeepsData(db: Db, steps: seq<Step>, crashes: seq<nat>)
    ensures Grows(db, Restarted(db, steps, crashes))
    decreases |crashes|
  {
    if crashes == [] {
      RunGrows(db, Plan(steps, db.recorded));
    } else {
      var plan, reached := Plan(steps, db.recorded), Crashed(db, steps, crashes[0]);
      RunGrows(db, if crashes[0] < |plan| then plan[..crashes[0]] else plan);
      UpgradeKeepsData(reached, steps, crashes[1..]);
      GrowsOn(db, reached, Restarted(reached, steps, crashes[1..]));
    }
  }

  /** The keys over the enterprise of each table. */
  function KeysOf(table: TableName): set<string> {
    match table
    case ProxyAccounts => {"uq_proxy_accounts_identity_enterprise", "idx_proxy_accounts_enterprise_updated"}
    case ProxyIdentityInitializations => {"idx_proxy_identity_initializations_enterprise"}
    case ProxyRequestStats => {"idx_proxy_request_stats_enterprise_time"}
    case UserPoolAccounts => {"idx_user_pool_accounts_enterprise_state", "idx_user_pool_accounts_member_enterprise"}
    case UserPoolEvents => {"idx_user_pool_events_enterprise"}
  }

  function ForeignKeysOf(table: TableName): set<string> {
    match table
    case ProxyAccounts => {"fk_proxy_accounts_enterprise"}
    case UserPoolAccounts => {"fk_user_pool_account_enterprise"}
    case _ => {}
  }

  /** The upgraded schema: the registry with the default enterprise, and the column, keys and foreign keys of every table. */
  lemma UpgradedSchema(db: Db, crashes: seq<nat>, poolCrashes: seq<nat>, table: TableName)
    requires TablesExist(db) && RecordedHold(db, BaseSteps, db.recorded) && RecordedHold(db, PoolSteps, db.recorded)
    ensures var final := Restarted(Restarted(db, BaseSteps, crashes), PoolSteps, poolCrashes);
      && final.enterprises.Some? && EnterpriseId("default") in final.enterprises.value
      && table in final.tables && final.tables[table].column.Some?
      && (forall key | key in KeysOf(table) :: KeyName(key) in final.tables[table].keys)
      && (forall key | key in ForeignKeysOf(table) :: KeyName(key) in final.tables[table].foreign)
      && (table == UserPoolEvents || final.tables[table].column.value.fallback.None?)
  {
    UpgradeIsCrashSafe(db, crashes, poolCrashes);
    var final := Restarted(Restarted(db, BaseSteps, crashes), PoolSteps, poolCrashes);
    assert IsApplied(final, BaseSteps[1].changes[0]);
    match table
    case ProxyAccounts =>
      assert IsApplied(final, BaseSteps[2].changes[1]) && IsApplied(final, BaseSteps[2].changes[2]);
      assert IsApplied(final, BaseSteps[2].changes[3]) && IsApplied(final, BaseSteps[3].changes[0]);
    case ProxyIdentityInitializations => assert IsApplied(final, BaseSteps[4].changes[1]) && IsApplied(final, BaseSteps[4].changes[2]);
    case ProxyRequestStats => assert IsApplied(final, BaseSteps[4].changes[4]) && IsApplied(final, BaseSteps[4].changes[5]);
    case UserPoolAccounts =>
      assert IsApplied(final, PoolSteps[0].changes[1]) && IsApplied(final, PoolSteps[0].changes[2]);
      assert IsApplied(final, PoolSteps[0].changes[3]) && IsApplied(final, PoolSteps[0].changes[4]);
    case UserPoolEvents => assert IsApplied(final, PoolSteps[1].changes[1]) && IsApplied(final, PoolSteps[1].changes[2]);
  }

  // ---------------------------------------------------------------- the runner

  /** A connection to the database being upgraded. */
  class Connection {
    var db: Db

    constructor (db: Db)
      ensures this.db == db
    {
      this.db := db;
    }

    method ApplyChanges(changes: seq<Change>)
      modifies this
      ensures db == Run(old(db), Changes(changes))
    {
      var i := 0;
      while i < |changes|
        invariant i <= |changes| && db == Run(old(db), Changes(changes[..i]))
      {
        assert changes[..i + 1][..i] == changes[..i];
        ghost var front := Changes(changes[..i]);
        assert Changes(changes[..i + 1]) == front + [Change(changes[i])] && (front + [Change(changes[i])])[..|front|] == front;
        if !IsApplied(db, changes[i]) { db := Execute(db, changes[i]); }
        i := i + 1;
      }
      assert changes[..i] == changes;
    }

    /** The ids recorded now, in order; every step that was recorded before is passed over. */
    method RunMigrationSteps(steps: seq<Step>) returns (applied: seq<string>)
      modifies this
      ensures db == Uninterrupted(old(db), steps)
      ensures applied == Unrecorded(steps, old(db).recorded)
    {
      var recorded := db.recorded;
      applied := [];
      var i := 0;
      while i < |steps|
        invariant i <= |steps|
        invariant Run(db, Plan(steps[i..], recorded)) == Uninterrupted(old(db), steps)
        invariant applied + Unrecorded(steps[i..], recorded) == Unrecorded(steps, recorded)
      {
        var step := steps[i];
        assert steps[i..][0] == step && steps[i..][1..] == steps[i + 1..];
        if step.id !in recorded {
          ghost var before := db;
          ApplyChanges(step.changes);
          db := db.(recorded := db.recorded + {step.id});
          applied := applied + [step.id];
          PlanAdvances(before, step, Plan(steps[i + 1..], recorded));
        }
        i := i + 1;
      }
    }
  }

  function Unrecorded(steps: seq<Step>, recorded: set<string>): seq<string> {
    if steps == [] then [] else (if steps[0].id in recorded then [] else [steps[0].id]) + Unrecorded(steps[1..], recorded)
  }

  lemma PlanAdvances(db: Db, step: Step, rest: seq<Action>)
    ensures Run(db, Changes(step.changes) + [Record(step.id)] + rest)
      == Run(Perform(Run(db, Changes(step.changes)), Record(step.id)), rest)
  {
    var done := Changes(step.changes);
    RunConcat(db, done + [Record(step.id)], rest);
    assert (done + [Record(step.id)])[..|done|] == done;
  }
}
