/**
 * The lease that lets one replica initialize an identity: a row per identity, claimed with one atomic upsert on SQLite and
 * with INSERT IGNORE followed by a guarded UPDATE on MySQL. The replicas share a clock that never runs backwards, but a
 * claim compares leases with the time it read when it started.
 */
module InitializationLease {
  import opened Common

  datatype ClaimId = ClaimId(uuid: string)

  datatype Lease = Lease(claim: ClaimId, expiresAt: nat)

  type Leases = map<Identity, Lease>

  const MaxAttempts := 3

  // ---------------------------------------------------------------- statements

  predicate IsFree(leases: Leases, identity: Identity, now: nat) {
    identity in leases ==> leases[identity].expiresAt <= now
  }

  /** SQLite: insert, or take over a lease that expired by `now`. */
  function Upsert(leases: Leases, identity: Identity, lease: Lease, now: nat): Leases {
    if IsFree(leases, identity, now) then leases[identity := lease] else leases
  }

  function InsertIgnore(leases: Leases, identity: Identity, lease: Lease): Leases {
    if identity in leases then leases else leases[identity := lease]
  }

  predicate CanTakeOver(leases: Leases, identity: Identity, now: nat) {
    identity in leases && leases[identity].expiresAt <= now
  }

  function TakeOver(leases: Leases, identity: Identity, lease: Lease, now: nat): Leases {
    if CanTakeOver(leases, identity, now) then leases[identity := lease] else leases
  }

  predicate Holds(leases: Leases, identity: Identity, claim: ClaimId) {
    identity in leases && leases[identity].claim == claim
  }

  function Delete(leases: Leases, identity: Identity, claim: ClaimId): Leases {
    if Holds(leases, identity, claim) then leases - {identity} else leases
  }

  // ---------------------------------------------------------------- replicas

  /** `Broken` is a call that threw, whether or not its statement reached the table. */
  datatype Phase = Upserting | Inserting(attempt: nat) | Updating(attempt: nat) | Granted | Refused | Broken

  datatype Call = Call(identity: Identity, now: nat, expiresAt: nat, phase: Phase)

  datatype System = System(clock: nat, leases: Leases, calls: map<ClaimId, Call>, released: set<ClaimId>)

  datatype Step =
    | DoTick(ms: nat)
    | DoStart(claim: ClaimId, identity: Identity, mysql: bool, leaseMs: nat, laterMs: nat)
    | DoStatement(claim: ClaimId, responseLost: bool)
    | DoLockError(claim: ClaimId)
    | DoRelease(claim: ClaimId)

  predicate InFlight(s: System, claim: ClaimId) {
    claim in s.calls && var phase := s.calls[claim].phase; phase == Upserting || phase.Inserting? || phase.Updating?
  }

  predicate Done(s: System, claim: ClaimId) {
    claim in s.calls && !InFlight(s, claim)
  }

  predicate Enabled(s: System, step: Step) {
    match step
    case DoTick(_) => true
    case DoStart(claim, _, _, _, _) => claim !in s.calls
    case DoStatement(claim, _) => InFlight(s, claim)
    case DoLockError(claim) => InFlight(s, claim) && s.calls[claim].phase != Upserting
    case DoRelease(claim) => Done(s, claim)
  }

  function WithPhase(s: System, claim: ClaimId, phase: Phase): System
    requires claim in s.calls
  {
    s.(calls := s.calls[claim := s.calls[claim].(phase := phase)])
  }

  function Verdict(changed: bool, responseLost: bool): Phase {
    if responseLost then Broken else if changed then Granted else Refused
  }

  /** The next statement of a claim; the expiry was computed `laterMs` after `now` was read. */
  function Statement(s: System, claim: ClaimId, responseLost: bool): System
    requires InFlight(s, claim)
  {
    var c := s.calls[claim];
    var lease := Lease(claim, c.expiresAt);
    match c.phase
    case Upserting =>
      WithPhase(s, claim, Verdict(IsFree(s.leases, c.identity, c.now), responseLost)).(leases := Upsert(s.leases, c.identity, lease, c.now))
    case Inserting(attempt) =>
      if c.identity !in s.leases
      then WithPhase(s, claim, Verdict(true, responseLost)).(leases := InsertIgnore(s.leases, c.identity, lease))
      else WithPhase(s, claim, if responseLost then Broken else Updating(attempt))
    case Updating(_) =>
      WithPhase(s, claim, Verdict(CanTakeOver(s.leases, c.identity, c.now), responseLost)).(leases := TakeOver(s.leases, c.identity, lease, c.now))
    case _ => s
  }

  /** A deadlock or lock timeout rolled the statement back; the third one is reported to the caller. */
  function LockError(s: System, claim: ClaimId): System
    requires InFlight(s, claim) && s.calls[claim].phase != Upserting
  {
    var attempt := s.calls[claim].phase.attempt;
    WithPhase(s, claim, if attempt + 1 >= MaxAttempts then Broken else Inserting(attempt + 1))
  }

  function Apply(s: System, step: Step): System
    requires Enabled(s, step)
  {
    match step
    case DoTick(ms) => s.(clock := s.clock + ms)
    case DoStart(claim, identity, mysql, leaseMs, laterMs) =>
      s.(clock := s.clock + laterMs,
         calls := s.calls[claim := Call(identity, s.clock, s.clock + laterMs + leaseMs, if mysql then Inserting(0) else Upserting)])
    case DoStatement(claim, responseLost) => Statement(s, claim, responseLost)
    case DoLockError(claim) => LockError(s, claim)
    case DoRelease(claim) =>
      s.(leases := Delete(s.leases, s.calls[claim].identity, claim), released := s.released + {claim})
  }

  predicate Init(s: System) {
    s.calls == map[] && s.leases == map[] && s.released == {}
  }

  predicate IsRun(trace: seq<System>, steps: seq<Step>) {
    && |trace| == |steps| + 1 && Init(trace[0])
    && forall i | 0 <= i < |steps| :: Enabled(trace[i], steps[i]) && trace[i + 1] == Apply(trace[i], steps[i])
  }

  // ---------------------------------------------------------------- safety

  /** The replica was told that it holds the lease, has not released it, and the lease has not run out. */
  predicate Live(s: System, claim: ClaimId) {
    claim in s.calls && s.calls[claim].phase == Granted && claim !in s.released && s.clock < s.calls[claim].expiresAt
  }

  predicate ClaimOk(s: System, claim: ClaimId) {
    && (claim in s.calls ==> s.calls[claim].now <= s.clock)
    && (claim in s.released ==> Done(s, claim))
    && (Live(s, claim) ==> var c := s.calls[claim]; c.identity in s.leases && s.leases[c.identity] == Lease(claim, c.expiresAt))
  }

  /** A row carries what its claim asked for, and that claim was granted and not released, or never heard its answer. */
  predicate RowOk(s: System, identity: Identity) {
    identity in s.leases ==>
      var row := s.leases[identity];
      && row.claim in s.calls && s.calls[row.claim].identity == identity && s.calls[row.claim].expiresAt == row.expiresAt
      && (s.calls[row.claim].phase == Broken || (s.calls[row.claim].phase == Granted && row.claim !in s.released))
  }

  ghost predicate Inv(s: System) {
    (forall claim :: ClaimOk(s, claim)) && forall identity :: RowOk(s, identity)
  }

  lemma StepKeepsInv(s: System, step: Step)
    requires Inv(s) && Enabled(s, step)
    ensures Inv(Apply(s, step))
  {
    var t := Apply(s, step);
    forall claim ensures ClaimOk(t, claim) {
      assert ClaimOk(s, claim);
      match step
      case DoStatement(actor, _) => assert ClaimOk(s, actor);
      case _ =>
    }
    forall identity ensures RowOk(t, identity) { StepKeepsRow(s, step, identity); }
  }

  lemma StepKeepsRow(s: System, step: Step, identity: Identity)
    requires Inv(s) && Enabled(s, step)
    ensures RowOk(Apply(s, step), identity)
  {
    assert RowOk(s, identity);
    match step
    case DoStatement(actor, _) => assert ClaimOk(s, actor);
    case _ =>
  }

  lemma {:induction false} RunKeepsInv(trace: seq<System>, steps: seq<Step>)
    requires IsRun(trace, steps)
    ensures Inv(trace[|steps|])
    decreases |steps|
  {
    if |steps| > 0 {
      var last := |steps| - 1;
      RunKeepsInv(trace[..|steps|], steps[..last]);
      StepKeepsInv(trace[last], steps[last]);
    }
  }

  /** No two replicas hold an unexpired, unreleased lease of one identity, and the table names the one that does. */
  lemma LeaseIsExclusive(trace: seq<System>, steps: seq<Step>, a: ClaimId, b: ClaimId)
    requires IsRun(trace, steps) && Live(trace[|steps|], a)
    ensures var s := trace[|steps|];
      && s.calls[a].identity in s.leases && s.leases[s.calls[a].identity] == Lease(a, s.calls[a].expiresAt)
      && (Live(s, b) && s.calls[a].identity == s.calls[b].identity ==> a == b)
  {
    RunKeepsInv(trace, steps);
    assert ClaimOk(trace[|steps|], a) && ClaimOk(trace[|steps|], b);
  }

  /** What a call was told, and what it asked for, never changes once it is done. */
  lemma StepKeepsDone(s: System, step: Step, a: ClaimId)
    requires Enabled(s, step) && Done(s, a)
    ensures var t := Apply(s, step); Done(t, a) && t.calls[a] == s.calls[a]
  {
  }

  /**
   * Whatever the other replicas do, the row of a live lease stays in the table, unchanged, until its holder releases it or
   * it runs out.
   */
  lemma {:induction false} OnlyHolderEndsLease(trace: seq<System>, steps: seq<Step>, i: nat, a: ClaimId)
    requires IsRun(trace, steps) && i <= |steps| && Live(trace[i], a)
    requires forall k | i <= k < |steps| :: steps[k] != DoRelease(a)
    requires trace[|steps|].clock < trace[i].calls[a].expiresAt
    ensures var s, c := trace[|steps|], trace[i].calls[a];
      && Live(s, a) && s.calls[a] == c
      && c.identity in s.leases && s.leases[c.identity] == Lease(a, c.expiresAt)
    decreases |steps|
  {
    if i < |steps| {
      var last := |steps| - 1;
      assert trace[last + 1] == Apply(trace[last], steps[last]) && trace[last].clock <= trace[last + 1].clock;
      OnlyHolderEndsLease(trace[..|steps|], steps[..last], i, a);
      StepKeepsDone(trace[last], steps[last], a);
    }
    RunKeepsInv(trace, steps);
    assert ClaimOk(trace[|steps|], a);
  }

  // ---------------------------------------------------------------- a superseded holder

  predicate IsGranted(s: System, claim: ClaimId) {
    claim in s.calls && s.calls[claim].phase == Granted
  }

  /** The call is done and the table no longer names it. */
  predicate LostRow(s: System, a: ClaimId) {
    Done(s, a) && !Holds(s.leases, s.calls[a].identity, a)
  }

  /** Only a call's own statement writes its row, so a row that a finished call lost is lost for good. */
  lemma StepKeepsLost(s: System, step: Step, a: ClaimId)
    requires Enabled(s, step) && LostRow(s, a)
    ensures LostRow(Apply(s, step), a)
  {
    StepKeepsDone(s, step, a);
  }

  /** The moment a claim is granted, the row is its own. */
  lemma GrantTakesRow(s: System, step: Step, a: ClaimId, b: ClaimId)
    requires Enabled(s, step) && !IsGranted(s, b) && IsGranted(Apply(s, step), b)
    requires Done(s, a) && a != b && s.calls[a].identity == Apply(s, step).calls[b].identity
    ensures LostRow(Apply(s, step), a)
  {
    StepKeepsDone(s, step, a);
  }

  lemma {:induction false} SupersededLosesRow(trace: seq<System>, steps: seq<Step>, i: nat, a: ClaimId, b: ClaimId)
    requires IsRun(trace, steps) && i <= |steps| && a != b
    requires IsGranted(trace[i], a) && !IsGranted(trace[i], b) && IsGranted(trace[|steps|], b)
    requires trace[i].calls[a].identity == trace[|steps|].calls[b].identity
    ensures LostRow(trace[|steps|], a) && trace[|steps|].calls[a] == trace[i].calls[a]
    decreases |steps|
  {
    var last := |steps| - 1;
    assert trace[last + 1] == Apply(trace[last], steps[last]);
    FinishedCallIsKept(trace[..|steps|], steps[..last], i, a);
    StepKeepsDone(trace[last], steps[last], a);
    if IsGranted(trace[last], b) {
      StepKeepsDone(trace[last], steps[last], b);
      SupersededLosesRow(trace[..|steps|], steps[..last], i, a, b);
      StepKeepsLost(trace[last], steps[last], a);
    } else {
      GrantTakesRow(trace[last], steps[last], a, b);
    }
  }

  lemma {:induction false} FinishedCallIsKept(trace: seq<System>, steps: seq<Step>, i: nat, a: ClaimId)
    requires IsRun(trace, steps) && i <= |steps| && Done(trace[i], a)
    ensures Done(trace[|steps|], a) && trace[|steps|].calls[a] == trace[i].calls[a]
    decreases |steps|
  {
    if i < |steps| {
      var last := |steps| - 1;
      FinishedCallIsKept(trace[..|steps|], steps[..last], i, a);
      StepKeepsDone(trace[last], steps[last], a);
    }
  }

  lemma {:induction false} LostStaysLost(trace: seq<System>, steps: seq<Step>, j: nat, a: ClaimId)
    requires IsRun(trace, steps) && j <= |steps| && LostRow(trace[j], a)
    ensures LostRow(trace[|steps|], a)
    decreases |steps|
  {
    if j < |steps| {
      var last := |steps| - 1;
      LostStaysLost(trace[..|steps|], steps[..last], j, a);
      StepKeepsLost(trace[last], steps[last], a);
    }
  }

  /**
   * Once another claim was granted after it, the release of a holder deletes nothing, whenever it comes and whoever holds
   * the lease by then.
   */
  lemma SupersededReleaseRemovesNothing(trace: seq<System>, steps: seq<Step>, i: nat, j: nat, k: nat, a: ClaimId, b: ClaimId)
    requires IsRun(trace, steps) && i <= j <= k < |steps| && a != b
    requires IsGranted(trace[i], a) && !IsGranted(trace[i], b) && IsGranted(trace[j], b)
    requires trace[i].calls[a].identity == trace[j].calls[b].identity
    requires steps[k] == DoRelease(a)
    ensures trace[k + 1].leases == trace[k].leases
  {
    SupersededLosesRow(trace[..j + 1], steps[..j], i, a, b);
    LostStaysLost(trace[..k + 1], steps[..k], j, a);
    assert trace[k + 1] == Apply(trace[k], steps[k]);
  }

  // ---------------------------------------------------------------- the two forms of a claim

  /** A run of one replica's statements with nothing in between. */
  function Uninterrupted(s: System, claim: ClaimId): System
    requires InFlight(s, claim)
  {
    var t := Statement(s, claim, false);
    if InFlight(t, claim) then Statement(t, claim, false) else t
  }

  /** Without another replica in between, MySQL's two statements decide and write what SQLite's one does. */
  lemma TwoStatementsAreOne(s: System, claim: ClaimId)
    requires claim in s.calls
    ensures var sqlite := Uninterrupted(WithPhase(s, claim, Upserting), claim);
      && Uninterrupted(WithPhase(s, claim, Inserting(0)), claim) == sqlite
      && (sqlite.calls[claim].phase == Granted <==> IsFree(s.leases, s.calls[claim].identity, s.calls[claim].now))
      && (sqlite.calls[claim].phase == Refused <==> !IsFree(s.leases, s.calls[claim].identity, s.calls[claim].now))
  {
    var c := s.calls[claim];
    assert s.calls[claim := c.(phase := Upserting)][claim := c.(phase := Granted)] == s.calls[claim := c.(phase := Granted)];
    assert s.calls[claim := c.(phase := Upserting)][claim := c.(phase := Refused)] == s.calls[claim := c.(phase := Refused)];
    var mysql := WithPhase(s, claim, Inserting(0));
    assert mysql.calls[claim := c.(phase := Granted)] == s.calls[claim := c.(phase := Granted)];
    var updating := WithPhase(mysql, claim, Updating(0));
    assert updating.calls[claim := c.(phase := Granted)] == s.calls[claim := c.(phase := Granted)];
    assert updating.calls[claim := c.(phase := Refused)] == s.calls[claim := c.(phase := Refused)];
  }

  /** Nothing in the table stands against a claim made now. */
  predicate FreeNow(s: System, identity: Identity) {
    IsFree(s.leases, identity, s.clock)
  }

  /** The lease still ran when the claim read its clock, and has run out since. */
  predicate RanOutMeanwhile(s: System, claim: ClaimId)
    requires claim in s.calls
  {
    var c := s.calls[claim];
    c.identity in s.leases && c.now < s.leases[c.identity].expiresAt <= s.clock
  }

  /** The row still runs, but its claim threw: the statement reached the table and its answer was lost. */
  predicate AnswerWasLost(s: System, claim: ClaimId)
    requires claim in s.calls
  {
    var identity := s.calls[claim].identity;
    && identity in s.leases && s.clock < s.leases[identity].expiresAt
    && s.leases[identity].claim in s.calls && s.calls[s.leases[identity].claim].phase == Broken
  }

  predicate RowIsGone(s: System, claim: ClaimId)
    requires claim in s.calls
  {
    s.calls[claim].phase.Updating? && s.calls[claim].identity !in s.leases
  }

  ghost predicate NobodyHolds(s: System, identity: Identity) {
    forall holder | holder in s.calls && s.calls[holder].identity == identity :: !Live(s, holder)
  }

  lemma NobodyHoldsIff(s: System, identity: Identity)
    requires Inv(s)
    ensures identity in s.leases ==> s.leases[identity].claim in s.calls
    ensures NobodyHolds(s, identity) <==> FreeNow(s, identity) || s.calls[s.leases[identity].claim].phase == Broken
  {
    assert RowOk(s, identity);
    if identity in s.leases { assert ClaimOk(s, s.leases[identity].claim); }
    forall holder | holder in s.calls && s.calls[holder].identity == identity && Live(s, holder)
      ensures identity in s.leases && s.leases[identity].claim == holder
    {
      assert ClaimOk(s, holder);
    }
  }

  /**
   * A deciding statement refuses although no replica holds the lease in exactly three cases: the lease ran out after the
   * claim read its clock; on MySQL, the row that stopped the INSERT is gone by the time of the UPDATE; or the row is that
   * of a claim whose answer was lost, which nobody will release.
   */
  lemma SpuriousRefusalIff(trace: seq<System>, steps: seq<Step>, i: nat, claim: ClaimId)
    requires IsRun(trace, steps) && i < |steps| && steps[i] == DoStatement(claim, false)
    requires trace[i].calls[claim].phase == Upserting || trace[i].calls[claim].phase.Updating?
    ensures var s := trace[i];
      trace[i + 1].calls[claim].phase == Refused && NobodyHolds(s, s.calls[claim].identity) <==>
        RanOutMeanwhile(s, claim) || RowIsGone(s, claim) || AnswerWasLost(s, claim)
  {
    RunKeepsInv(trace[..i + 1], steps[..i]);
    var s := trace[i];
    assert ClaimOk(s, claim) && RowOk(s, s.calls[claim].identity);
    NobodyHoldsIff(s, s.calls[claim].identity);
    assert trace[i + 1] == Apply(s, steps[i]);
  }

  /** The table's answer to the next statement of a claim: no row stands in its way at the time the claim read. */
  predicate Wins(s: System, claim: ClaimId)
    requires claim in s.calls
  {
    var c := s.calls[claim];
    if c.identity in s.leases then !c.phase.Inserting? && s.leases[c.identity].expiresAt <= c.now else !c.phase.Updating?
  }

  /**
   * A statement takes the row exactly when it wins, with the claim's own id and expiry, and nothing else changes in the
   * table. A claim that heard the answer is then granted, refused, or on MySQL sends its UPDATE.
   */
  lemma StatementDecides(trace: seq<System>, steps: seq<Step>, i: nat, claim: ClaimId, lost: bool)
    requires IsRun(trace, steps) && i < |steps| && steps[i] == DoStatement(claim, lost)
    ensures claim in trace[i].calls && claim in trace[i + 1].calls && var s, t, c := trace[i], trace[i + 1], trace[i].calls[claim];
      && t.leases == (if Wins(s, claim) then s.leases[c.identity := Lease(claim, c.expiresAt)] else s.leases)
      && t.calls[claim] == c.(phase := if lost then Broken else if Wins(s, claim) then Granted
                                       else if c.phase.Inserting? then Updating(c.phase.attempt) else Refused)
      && t.calls - {claim} == s.calls - {claim} && t.released == s.released && t.clock == s.clock
  {
    assert trace[i + 1] == Apply(trace[i], steps[i]);
  }

  /** A release removes exactly the row of its claim, if that is still there. */
  lemma ReleaseFrees(trace: seq<System>, steps: seq<Step>, i: nat, claim: ClaimId)
    requires IsRun(trace, steps) && i < |steps| && steps[i] == DoRelease(claim)
    ensures claim in trace[i].calls && var s, t, id := trace[i], trace[i + 1], trace[i].calls[claim].identity;
      && t.leases == (if id in s.leases && s.leases[id].claim == claim then s.leases - {id} else s.leases)
      && t.calls == s.calls && claim in t.released
  {
    assert trace[i + 1] == Apply(trace[i], steps[i]);
  }

  lemma CallKeepsTimes(s: System, step: Step, claim: ClaimId)
    requires Enabled(s, step) && claim in s.calls
    ensures claim in Apply(s, step).calls && Apply(s, step).calls[claim] == s.calls[claim].(phase := Apply(s, step).calls[claim].phase)
  {
  }

  /** A claim keeps the times of its start: what it compares with is when it was called, and its lease lasts as long as asked for. */
  lemma {:induction false} ClaimKeepsTimes(trace: seq<System>, steps: seq<Step>, i: nat, claim: ClaimId)
    requires IsRun(trace, steps) && i < |steps| && steps[i].DoStart? && steps[i].claim == claim
    ensures claim in trace[|steps|].calls && var call, step := trace[|steps|].calls[claim], steps[i];
      && call.identity == step.identity && call.now == trace[i].clock
      && call.expiresAt == trace[i + 1].clock + step.leaseMs && trace[i + 1].clock == trace[i].clock + step.laterMs
    decreases |steps|
  {
    var last := |steps| - 1;
    assert trace[last + 1] == Apply(trace[last], steps[last]);
    if i < last {
      ClaimKeepsTimes(trace[..|steps|], steps[..last], i, claim);
      CallKeepsTimes(trace[last], steps[last], claim);
    }
  }

  /** The third lock error of a claim is thrown; after the first two it starts again. */
  lemma LockErrorRetries(trace: seq<System>, steps: seq<Step>, i: nat, claim: ClaimId)
    requires IsRun(trace, steps) && i < |steps| && steps[i] == DoLockError(claim)
    ensures claim in trace[i].calls && claim in trace[i + 1].calls && trace[i + 1].leases == trace[i].leases
    ensures var before := trace[i].calls[claim].phase;
      && (before.Inserting? || before.Updating?)
      && trace[i + 1].calls[claim].phase == if before.attempt >= 2 then Broken else Inserting(before.attempt + 1)
  {
    assert trace[i + 1] == Apply(trace[i], steps[i]);
  }

  lemma Extended(trace: seq<System>, steps: seq<Step>, step: Step)
    requires IsRun(trace, steps) && Enabled(trace[|steps|], step)
    ensures IsRun(trace + [Apply(trace[|steps|], step)], steps + [step])
  {
  }

  /** A run in which `a` wrote its row and `b` has just been stopped by it; `a` may never have heard its answer. */
  lemma Contended(identity: Identity, a: ClaimId, b: ClaimId, lost: bool) returns (trace: seq<System>, steps: seq<Step>)
    requires a != b
    ensures IsRun(trace, steps)
    ensures var call := Call(identity, 0, 1000, if lost then Broken else Granted);
      trace[|steps|] == System(0, map[identity := Lease(a, 1000)], map[a := call, b := call.(phase := Updating(0))], {})
  {
    var s0 := System(0, map[], map[], {});
    var s1 := Apply(s0, DoStart(a, identity, true, 1000, 0));
    var s2 := Apply(s1, DoStatement(a, lost));
    var s3 := Apply(s2, DoStart(b, identity, true, 1000, 0));
    var s4 := Apply(s3, DoStatement(b, false));
    trace := [s0, s1, s2, s3, s4];
    steps := [DoStart(a, identity, true, 1000, 0), DoStatement(a, lost), DoStart(b, identity, true, 1000, 0), DoStatement(b, false)];
  }

  datatype Cause = Gone | RanOut | Lost

  predicate Caused(s: System, claim: ClaimId, cause: Cause)
    requires claim in s.calls
  {
    match cause
    case Gone => RowIsGone(s, claim)
    case RanOut => RanOutMeanwhile(s, claim)
    case Lost => AnswerWasLost(s, claim)
  }

  /** The last step of the run refuses the claim although nobody holds the lease, for this reason. */
  ghost predicate IsSpurious(trace: seq<System>, steps: seq<Step>, claim: ClaimId, cause: Cause) {
    && IsRun(trace, steps) && |steps| > 0 && steps[|steps| - 1] == DoStatement(claim, false)
    && claim in trace[|steps| - 1].calls && claim in trace[|steps|].calls && trace[|steps|].calls[claim].phase == Refused
    && NobodyHolds(trace[|steps| - 1], trace[|steps| - 1].calls[claim].identity) && Caused(trace[|steps| - 1], claim, cause)
  }

  lemma Refuses(trace: seq<System>, steps: seq<Step>, identity: Identity, b: ClaimId, cause: Cause)
    returns (trace': seq<System>, steps': seq<Step>)
    requires IsRun(trace, steps) && var s := trace[|steps|];
      && b in s.calls && s.calls[b] == Call(identity, 0, 1000, Updating(0)) && !CanTakeOver(s.leases, identity, 0)
      && NobodyHolds(s, identity) && Caused(s, b, cause)
    ensures IsSpurious(trace', steps', b, cause)
  {
    Extended(trace, steps, DoStatement(b, false));
    trace', steps' := trace + [Apply(trace[|steps|], DoStatement(b, false))], steps + [DoStatement(b, false)];
  }

  /** All three happen: the holder releases between the two statements, its lease runs out, or its answer was lost. */
  lemma SpuriousRefusalHappens(identity: Identity, a: ClaimId, b: ClaimId, cause: Cause) returns (trace: seq<System>, steps: seq<Step>)
    requires a != b
    ensures IsSpurious(trace, steps, b, cause)
  {
    trace, steps := Contended(identity, a, b, cause == Lost);
    if cause != Lost {
      var step := if cause == Gone then DoRelease(a) else DoTick(1000);
      Extended(trace, steps, step);
      trace, steps := trace + [Apply(trace[|steps|], step)], steps + [step];
    }
    trace, steps := Refuses(trace, steps, identity, b, cause);
  }

  // ---------------------------------------------------------------- the table and the retry loop

  /** Which statement of an attempt the database rolled back with a lock error. */
  datatype Fault = NoFault | OnInsert | OnUpdate

  predicate Faulty(fault: Fault, taken: bool) {
    fault == OnInsert || (fault == OnUpdate && taken)
  }

  class LeaseTable {
    var leases: Leases

    constructor ()
      ensures leases == map[]
    {
      leases := map[];
    }

    method ClaimSqlite(identity: Identity, claim: ClaimId, expiresAt: nat, now: nat) returns (granted: bool)
      modifies this
      ensures leases == Upsert(old(leases), identity, Lease(claim, expiresAt), now)
      ensures granted <==> old(IsFree(leases, identity, now))
    {
      granted := identity !in leases || leases[identity].expiresAt <= now;
      if granted { leases := leases[identity := Lease(claim, expiresAt)]; }
    }

    /** At most three attempts; the first one without a lock error decides as SQLite would, and only a third error is thrown. */
    method ClaimMysql(identity: Identity, claim: ClaimId, expiresAt: nat, now: nat, faults: seq<Fault>) returns (granted: Option<bool>)
      requires |faults| == MaxAttempts
      modifies this
      ensures granted.None? <==> forall k | 0 <= k < MaxAttempts :: Faulty(faults[k], identity in old(leases))
      ensures granted.None? ==> leases == old(leases)
      ensures granted.Some? ==> leases == Upsert(old(leases), identity, Lease(claim, expiresAt), now)
      ensures granted.Some? ==> (granted.value <==> old(IsFree(leases, identity, now)))
    {
      for attempt := 0 to MaxAttempts
        invariant leases == old(leases)
        invariant forall k | 0 <= k < attempt :: Faulty(faults[k], identity in leases)
      {
        if faults[attempt] == OnInsert { continue; }
        if identity !in leases {
          leases := leases[identity := Lease(claim, expiresAt)];
          return Some(true);
        }
        if faults[attempt] == OnUpdate { continue; }
        if leases[identity].expiresAt <= now {
          leases := leases[identity := Lease(claim, expiresAt)];
          return Some(true);
        }
        return Some(false);
      }
      granted := None;
    }

    method Release(identity: Identity, claim: ClaimId) returns (removed: bool)
      modifies this
      ensures leases == Delete(old(leases), identity, claim)
      ensures removed <==> old(Holds(leases, identity, claim))
    {
      removed := identity in leases && leases[identity].claim == claim;
      if removed { leases := leases - {identity}; }
    }
  }
}
