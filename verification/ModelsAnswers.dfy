/** What every lookup of the model cache answers, read off the history of a run: what ended it, and what it then returns. */
module ModelsAnswers {
  import opened Common
  import opened ModelsCache
  import opened LastWriter

  const SixHoursMs := 21_600_000
  const OneHourMs := 3_600_000

  // ---------------------------------------------------------------- what a step gives to a lookup

  predicate WaitsFor(s: Cache, w: nat, r: nat) {
    r in s.refreshes && w in s.refreshes[r].waiters
  }

  /** The catalog the cache holds for the key at this moment. */
  function Held(s: Cache, key: Key): Option<Snapshot> {
    if key in s.mapped && s.mapped[key] in s.entries && !s.entries[s.mapped[key]].retired then s.entries[s.mapped[key]].snapshot else None
  }

  /** The held catalog that an unforced lookup need not refresh. */
  function Unexpired(s: Cache, key: Key, force: bool): Option<Snapshot> {
    var held := Held(s, key);
    if !force && held.Some? && s.clock < held.value.fetchedAt + OneHourMs then held else None
  }

  /** The step is the call of the lookup `w`. */
  predicate Starts(s: Cache, step: Step, t: Cache, w: nat) {
    step.DoLookup? && w !in s.lookups && w in t.lookups
  }

  /** How the step ends the lookup `w`, None when it does not. */
  function Given(s: Cache, step: Step, t: Cache, w: nat): Option<Outcome> {
    match step
    case DoLookup(key, force, _) =>
      if Starts(s, step, t, w) && Unexpired(s, key, force).Some? then Some(Served(Unexpired(s, key, force).value)) else None
    case DoAbort(v) => if v == w then Some(Rejected(AbortError)) else None
    case DoFetched(r, models, collides) =>
      if !WaitsFor(s, w, r) then None else Some(if collides then Rejected(Collision) else Resolved(Snapshot(models, r, s.clock)))
    case DoFetchFailed(r, failure) => if WaitsFor(s, w, r) then Some(Rejected(failure)) else None
    case DoTimeout(r) => if WaitsFor(s, w, r) then Some(Rejected(HttpStatus(504))) else None
    case _ => None
  }

  /** What a lookup reads when it is called, whatever becomes of it. */
  predicate Reads(s: Cache, step: Step, l: Lookup) {
    step.DoLookup? && l.key == step.key && l.at == s.clock && l.captured == Held(s, step.key) && l.allowStale == step.allowStale
  }

  function OutcomeOf(s: Cache, w: nat): Option<Outcome> {
    if w in s.lookups then s.lookups[w].outcome else None
  }

  /** The step ends exactly the lookups it gives an outcome, each of which was unanswered. */
  predicate Answered(s: Cache, step: Step, t: Cache, w: nat) {
    && OutcomeOf(t, w) == (if Given(s, step, t, w).Some? then Given(s, step, t, w) else OutcomeOf(s, w))
    && (Given(s, step, t, w).Some? ==> OutcomeOf(s, w).None?)
    && (w in s.lookups ==> w in t.lookups && t.lookups[w] == s.lookups[w].(outcome := t.lookups[w].outcome))
    && (w in t.lookups && w !in s.lookups ==> Reads(s, step, t.lookups[w]))
  }

  lemma EnsuredHolds(s: Cache, key: Key)
    requires Inv(s)
    ensures var t := EnsureEntry(s, key);
      && HasLiveEntry(t, key) && t.entries[t.mapped[key]].snapshot == Held(s, key) && t.entries[t.mapped[key]].key == key
      && t.clock == s.clock && t.lookups == s.lookups && t.refreshes == s.refreshes
  {
    EnsureKeepsInv(s, key);
    assert KeyOk(EnsureEntry(s, key), key) && KeyOk(s, key);
    if key in s.mapped { assert EntryOk(s, s.mapped[key]); }
  }

  lemma JoinedIsUnanswered(s: Cache, e: nat, allowStale: bool, w: nat)
    requires e in s.entries
    ensures var t, entry := JoinRefresh(s, e, allowStale), s.entries[e];
      && s.events in t.lookups && (w != s.events ==> (w in t.lookups <==> w in s.lookups) && (w in s.lookups ==> t.lookups[w] == s.lookups[w]))
      && var l := t.lookups[s.events];
        l.key == entry.key && l.at == s.clock && l.captured == entry.snapshot && l.allowStale == allowStale && l.outcome == None
  {
  }

  lemma ServedIsAnswered(s: Cache, e: nat, allowStale: bool, w: nat)
    requires e in s.entries && s.entries[e].snapshot.Some?
    ensures var t, entry := ServeCached(s, e, allowStale), s.entries[e];
      && s.events in t.lookups && (w != s.events ==> (w in t.lookups <==> w in s.lookups) && (w in s.lookups ==> t.lookups[w] == s.lookups[w]))
      && var l := t.lookups[s.events];
        && l.key == entry.key && l.at == s.clock && l.captured == entry.snapshot && l.allowStale == allowStale
        && l.outcome == Some(Served(entry.snapshot.value))
  {
  }

  lemma LookupAnswers(s: Cache, key: Key, force: bool, allowStale: bool, w: nat)
    requires Inv(s)
    ensures Answered(s, DoLookup(key, force, allowStale), StartLookup(s, key, force, allowStale), w)
  {
    EnsureKeepsInv(s, key);
    EnsuredHolds(s, key);
    var t := EnsureEntry(s, key);
    assert LookupOk(t, t.events);
    if Usable(t.entries[t.mapped[key]].snapshot, force, t.clock) { ServedIsAnswered(t, t.mapped[key], allowStale, w); }
    else { JoinedIsUnanswered(t, t.mapped[key], allowStale, w); }
  }

  lemma SettleAnswers(s: Cache, r: nat, outcome: Outcome, aborted: bool, fetching: bool, w: nat)
    requires r in s.refreshes && WaiterOk(s, r, w)
    ensures var t := Settle(s, r, outcome, aborted, fetching);
      && OutcomeOf(t, w) == (if WaitsFor(s, w, r) then Some(outcome) else OutcomeOf(s, w))
      && (WaitsFor(s, w, r) ==> OutcomeOf(s, w).None?)
      && (w in t.lookups <==> w in s.lookups) && (w in s.lookups ==> t.lookups[w] == s.lookups[w].(outcome := t.lookups[w].outcome))
  {
  }

  lemma FetchedAnswers(s: Cache, r: nat, models: seq<string>, collides: bool, w: nat)
    requires Inv(s) && r in s.refreshes && s.refreshes[r].fetching
    ensures Answered(s, DoFetched(r, models, collides), FetchSucceeded(s, r, models, collides), w)
  {
    assert RefreshOk(s, r) && WaiterOk(s, r, w);
    var snapshot := Snapshot(models, r, s.clock);
    if s.refreshes[r].aborted { SettleAnswers(s, r, Rejected(AbortError), true, false, w); }
    else if collides { SettleAnswers(s, r, Rejected(Collision), false, false, w); }
    else { SettleAnswers(StoreSnapshot(s, s.refreshes[r].entry, snapshot), r, Resolved(snapshot), false, false, w); }
  }

  lemma AbortAnswers(s: Cache, v: nat, w: nat)
    requires Inv(s) && Waits(s, v)
    ensures Answered(s, DoAbort(v), AbortWaiter(s, v, s.lookups[v].refresh.value), w)
  {
    assert WaiterOk(s, s.lookups[v].refresh.value, v);
  }

  lemma StepAnswers(s: Cache, step: Step, w: nat)
    requires Inv(s) && Enabled(s, step)
    ensures Answered(s, step, Apply(s, step), w)
  {
    match step
    case DoLookup(key, force, allowStale) => LookupAnswers(s, key, force, allowStale, w);
    case DoAbort(v) => AbortAnswers(s, v, w);
    case DoFetched(r, models, collides) => FetchedAnswers(s, r, models, collides, w);
    case DoFetchFailed(r, failure) =>
      assert WaiterOk(s, r, w);
      SettleAnswers(s, r, Rejected(failure), s.refreshes[r].aborted, false, w);
    case DoTimeout(r) =>
      assert WaiterOk(s, r, w);
      SettleAnswers(s, r, Rejected(HttpStatus(504)), true, s.refreshes[r].fetching, w);
    case _ =>
  }

  // ---------------------------------------------------------------- whole runs

  /** Some step of the run ended the lookup this way. */
  ghost predicate WasGiven(trace: seq<Cache>, steps: seq<Step>, w: nat, outcome: Outcome)
    requires |trace| == |steps| + 1
  {
    exists j | 0 <= j < |steps| :: Given(trace[j], steps[j], trace[j + 1], w) == Some(outcome)
  }

  /** Some step of the run is the lookup's call, and the lookup holds what it read then. */
  ghost predicate WasRead(trace: seq<Cache>, steps: seq<Step>, w: nat, l: Lookup)
    requires |trace| == |steps| + 1
  {
    exists j | 0 <= j < |steps| :: Starts(trace[j], steps[j], trace[j + 1], w) && Reads(trace[j], steps[j], l)
  }

  lemma OneMoreGift(trace: seq<Cache>, steps: seq<Step>, w: nat, outcome: Outcome)
    requires |trace| == |steps| + 1 && |steps| > 0
    ensures var last := |steps| - 1;
      WasGiven(trace, steps, w, outcome) <==>
        WasGiven(trace[..|steps|], steps[..last], w, outcome) || Given(trace[last], steps[last], trace[|steps|], w) == Some(outcome)
  {
    var last := |steps| - 1;
    var trace', steps' := trace[..|steps|], steps[..last];
    if j :| 0 <= j < last && Given(trace'[j], steps'[j], trace'[j + 1], w) == Some(outcome) {
      assert Given(trace[j], steps[j], trace[j + 1], w) == Some(outcome);
    }
    if j :| 0 <= j < |steps| && Given(trace[j], steps[j], trace[j + 1], w) == Some(outcome) {
      if j < last { assert Given(trace'[j], steps'[j], trace'[j + 1], w) == Some(outcome); }
    }
  }

  lemma StillRead(trace: seq<Cache>, steps: seq<Step>, w: nat, l: Lookup)
    requires |trace| == |steps| + 1 && |steps| > 0 && WasRead(trace[..|steps|], steps[..|steps| - 1], w, l)
    ensures WasRead(trace, steps, w, l)
  {
    var trace', steps' := trace[..|steps|], steps[..|steps| - 1];
    var j :| 0 <= j < |steps'| && Starts(trace'[j], steps'[j], trace'[j + 1], w) && Reads(trace'[j], steps'[j], l);
    assert Starts(trace[j], steps[j], trace[j + 1], w) && Reads(trace[j], steps[j], l);
  }

  /** A lookup's outcome is the one some step gave it, and no other was ever given. */
  lemma {:induction false} OutcomeWasGiven(trace: seq<Cache>, steps: seq<Step>, w: nat, outcome: Outcome)
    requires IsRun(trace, steps)
    ensures OutcomeOf(trace[|steps|], w) == Some(outcome) <==> WasGiven(trace, steps, w, outcome)
    ensures w in trace[|steps|].lookups ==> WasRead(trace, steps, w, trace[|steps|].lookups[w])
    decreases |steps|
  {
    if |steps| > 0 {
      var last := |steps| - 1;
      OutcomeWasGiven(trace[..|steps|], steps[..last], w, outcome);
      RunKeepsInv(trace[..|steps|], steps[..last]);
      StepAnswers(trace[last], steps[last], w);
      NextOutcome(trace, steps, w, outcome);
    }
  }

  lemma NextOutcome(trace: seq<Cache>, steps: seq<Step>, w: nat, outcome: Outcome)
    requires |trace| == |steps| + 1 && |steps| > 0
    requires var last := |steps| - 1; var trace', steps' := trace[..|steps|], steps[..last];
      && Answered(trace[last], steps[last], trace[|steps|], w)
      && (OutcomeOf(trace[last], w) == Some(outcome) <==> WasGiven(trace', steps', w, outcome))
      && (w in trace[last].lookups ==> WasRead(trace', steps', w, trace[last].lookups[w]))
    ensures OutcomeOf(trace[|steps|], w) == Some(outcome) <==> WasGiven(trace, steps, w, outcome)
    ensures w in trace[|steps|].lookups ==> WasRead(trace, steps, w, trace[|steps|].lookups[w])
  {
    var last := |steps| - 1;
    OneMoreGift(trace, steps, w, outcome);
    if w in trace[|steps|].lookups && w in trace[last].lookups {
      SameReading(trace[..|steps|], steps[..last], w, trace[last].lookups[w], trace[|steps|].lookups[w]);
      StillRead(trace, steps, w, trace[|steps|].lookups[w]);
    }
  }

  lemma SameReading(trace: seq<Cache>, steps: seq<Step>, w: nat, l: Lookup, l': Lookup)
    requires |trace| == |steps| + 1 && WasRead(trace, steps, w, l) && l' == l.(outcome := l'.outcome)
    ensures WasRead(trace, steps, w, l')
  {
    var j :| 0 <= j < |steps| && Starts(trace[j], steps[j], trace[j + 1], w) && Reads(trace[j], steps[j], l);
    assert Reads(trace[j], steps[j], l');
  }

  // ---------------------------------------------------------------- what a lookup returns

  /** The lookup's refresh brought this catalog while it waited. */
  ghost predicate WasDelivered(trace: seq<Cache>, steps: seq<Step>, w: nat, snapshot: Snapshot)
    requires |trace| == |steps| + 1
  {
    exists j | 0 <= j < |steps| ::
      && steps[j] == DoFetched(snapshot.refresh, snapshot.models, false) && WaitsFor(trace[j], w, snapshot.refresh)
      && snapshot.fetchedAt == trace[j].clock
  }

  /** The cache held this catalog when the lookup was called, unexpired, and the call did not force a refresh. */
  ghost predicate WasCached(trace: seq<Cache>, steps: seq<Step>, w: nat, snapshot: Snapshot)
    requires |trace| == |steps| + 1
  {
    exists j | 0 <= j < |steps| ::
      Starts(trace[j], steps[j], trace[j + 1], w) && Unexpired(trace[j], steps[j].key, steps[j].force) == Some(snapshot)
  }

  /** The failures after which no stale catalog is served. */
  predicate SpeaksAgainstStale(failure: Failure) {
    failure == Collision || failure == HttpStatus(401) || failure == HttpStatus(403) || failure == HttpStatus(429)
  }

  /** The catalog the lookup captured when it was called may stand in for a failed refresh. */
  predicate MayStandIn(l: Lookup, snapshot: Snapshot) {
    l.allowStale && l.captured == Some(snapshot) && l.at - snapshot.fetchedAt <= SixHoursMs
  }

  lemma ResolvedIffDelivered(trace: seq<Cache>, steps: seq<Step>, w: nat, snapshot: Snapshot)
    requires |trace| == |steps| + 1
    ensures WasGiven(trace, steps, w, Resolved(snapshot)) <==> WasDelivered(trace, steps, w, snapshot)
  {
    if j :| 0 <= j < |steps| && Given(trace[j], steps[j], trace[j + 1], w) == Some(Resolved(snapshot)) {
      assert steps[j] == DoFetched(snapshot.refresh, snapshot.models, false);
    }
    if WasDelivered(trace, steps, w, snapshot) {
      var j :| 0 <= j < |steps| && steps[j] == DoFetched(snapshot.refresh, snapshot.models, false)
        && WaitsFor(trace[j], w, snapshot.refresh) && snapshot.fetchedAt == trace[j].clock;
      assert Given(trace[j], steps[j], trace[j + 1], w) == Some(Resolved(snapshot));
    }
  }

  lemma ServedIffCached(trace: seq<Cache>, steps: seq<Step>, w: nat, snapshot: Snapshot)
    requires |trace| == |steps| + 1
    ensures WasGiven(trace, steps, w, Served(snapshot)) <==> WasCached(trace, steps, w, snapshot)
  {
    if j :| 0 <= j < |steps| && Given(trace[j], steps[j], trace[j + 1], w) == Some(Served(snapshot)) {
      assert Starts(trace[j], steps[j], trace[j + 1], w);
    }
    if WasCached(trace, steps, w, snapshot) {
      var j :| 0 <= j < |steps| && Starts(trace[j], steps[j], trace[j + 1], w)
        && Unexpired(trace[j], steps[j].key, steps[j].force) == Some(snapshot);
      assert Given(trace[j], steps[j], trace[j + 1], w) == Some(Served(snapshot));
    }
  }

  /** A lookup answers a fresh catalog exactly when its refresh delivered that one while it waited. */
  lemma FreshIff(trace: seq<Cache>, steps: seq<Step>, w: nat, signalAborted: bool, snapshot: Snapshot)
    requires IsRun(trace, steps) && w in trace[|steps|].lookups && trace[|steps|].lookups[w].outcome.Some?
    ensures Return(trace[|steps|].lookups[w], signalAborted) == Catalog(snapshot, Fresh) <==> WasDelivered(trace, steps, w, snapshot)
  {
    OutcomeWasGiven(trace, steps, w, Resolved(snapshot));
    ResolvedIffDelivered(trace, steps, w, snapshot);
  }

  /** It answers a cached one exactly when that was held and unexpired at the call, and the call did not force a refresh. */
  lemma CachedIff(trace: seq<Cache>, steps: seq<Step>, w: nat, signalAborted: bool, snapshot: Snapshot)
    requires IsRun(trace, steps) && w in trace[|steps|].lookups && trace[|steps|].lookups[w].outcome.Some?
    ensures Return(trace[|steps|].lookups[w], signalAborted) == Catalog(snapshot, Cached) <==> WasCached(trace, steps, w, snapshot)
  {
    OutcomeWasGiven(trace, steps, w, Served(snapshot));
    ServedIffCached(trace, steps, w, snapshot);
  }

  /**
   * After a failure it answers the catalog that was held at the call exactly when the failure does not speak against it,
   * the caller allowed it, the catalog was at most six hours old and the caller's signal did not fire; otherwise it throws
   * the failure, or the abort of the signal. `WasRead` says what the call read.
   */
  lemma FailedLookupAnswers(trace: seq<Cache>, steps: seq<Step>, w: nat, signalAborted: bool, failure: Failure)
    requires IsRun(trace, steps) && w in trace[|steps|].lookups && WasGiven(trace, steps, w, Rejected(failure))
    ensures var l := trace[|steps|].lookups[w];
      l.outcome.Some? && WasRead(trace, steps, w, l) && Return(l, signalAborted) == AfterFailure(l, failure, signalAborted)
  {
    OutcomeWasGiven(trace, steps, w, Rejected(failure));
    RejectedReturns(trace[|steps|].lookups[w], failure, signalAborted);
  }

  function AfterFailure(l: Lookup, failure: Failure, signalAborted: bool): Returned {
    if signalAborted then Thrown(AbortError)
    else if !SpeaksAgainstStale(failure) && l.captured.Some? && MayStandIn(l, l.captured.value) then Catalog(l.captured.value, Stale)
    else Thrown(failure)
  }

  lemma RejectedReturns(l: Lookup, failure: Failure, signalAborted: bool)
    requires l.outcome == Some(Rejected(failure))
    ensures Return(l, signalAborted) == AfterFailure(l, failure, signalAborted)
  {
  }

  /** These are all the answers: a lookup throws or answers a stale catalog only after a failure that some step gave it. */
  lemma OtherAnswersFollowFailures(trace: seq<Cache>, steps: seq<Step>, w: nat, signalAborted: bool)
    requires IsRun(trace, steps) && w in trace[|steps|].lookups && trace[|steps|].lookups[w].outcome.Some?
    requires var result := Return(trace[|steps|].lookups[w], signalAborted); result.Thrown? || result.status == Stale
    ensures exists failure :: WasGiven(trace, steps, w, Rejected(failure))
  {
    var outcome := trace[|steps|].lookups[w].outcome.value;
    OutcomeWasGiven(trace, steps, w, outcome);
    assert WasGiven(trace, steps, w, Rejected(outcome.failure));
  }

  // ---------------------------------------------------------------- joining and delivering

  /** The refresh that the key's entry has under way. */
  function UnderWay(s: Cache, key: Key): Option<nat> {
    if key in s.mapped && s.mapped[key] in s.entries then s.entries[s.mapped[key]].refresh else None
  }

  /** The lookup joins the refresh under way, or starts one under its own name with thirty seconds to go. */
  predicate Joins(s: Cache, key: Key, t: Cache, w: nat) {
    && w in t.lookups && t.lookups[w].outcome.None?
    && t.lookups[w].refresh == Some(if UnderWay(s, key).Some? then UnderWay(s, key).value else w)
    && WaitsFor(t, w, t.lookups[w].refresh.value)
    && (UnderWay(s, key).None? ==> t.refreshes[w].waiters == {w} && t.refreshes[w].deadline == s.clock + 30_000)
  }

  /** A lookup that finds no catalog to use waits for a refresh whose request is under way: one per key. */
  lemma LookupJoins(trace: seq<Cache>, steps: seq<Step>, i: nat, w: nat)
    requires IsRun(trace, steps) && i < |steps| && Starts(trace[i], steps[i], trace[i + 1], w)
    requires Unexpired(trace[i], steps[i].key, steps[i].force).None?
    ensures Joins(trace[i], steps[i].key, trace[i + 1], w)
    ensures var refresh := trace[i + 1].refreshes[trace[i + 1].lookups[w].refresh.value]; refresh.fetching && !refresh.aborted && refresh.armed
  {
    RunKeepsInv(trace[..i + 1], steps[..i]);
    RunKeepsInv(trace[..i + 2], steps[..i + 1]);
    StartJoins(trace[i], steps[i].key, steps[i].force, steps[i].allowStale, w);
    assert RefreshOk(trace[i + 1], trace[i + 1].lookups[w].refresh.value);
  }

  lemma StartJoins(s: Cache, key: Key, force: bool, allowStale: bool, w: nat)
    requires Inv(s) && Unexpired(s, key, force).None? && w !in s.lookups && w in StartLookup(s, key, force, allowStale).lookups
    ensures Joins(s, key, StartLookup(s, key, force, allowStale), w)
  {
    EnsureKeepsInv(s, key);
    EnsuredHolds(s, key);
    EnsuredRefresh(s, key);
    var t := EnsureEntry(s, key);
    assert EntryOk(t, t.mapped[key]) && RefreshOk(t, t.events);
    JoinedIsUnanswered(t, t.mapped[key], allowStale, w);
    JoinedWaits(t, t.mapped[key], allowStale);
  }

  lemma JoinedWaits(s: Cache, e: nat, allowStale: bool)
    requires e in s.entries && s.events !in s.refreshes
    ensures var t, r := JoinRefresh(s, e, allowStale), if s.entries[e].refresh.Some? then s.entries[e].refresh.value else s.events;
      && t.lookups[s.events].refresh == Some(r) && WaitsFor(t, s.events, r)
      && (s.entries[e].refresh.None? ==> t.refreshes[r].waiters == {s.events} && t.refreshes[r].deadline == s.clock + 30_000)
  {
  }

  lemma EnsuredRefresh(s: Cache, key: Key)
    requires Inv(s)
    ensures var t := EnsureEntry(s, key); key in t.mapped && t.mapped[key] in t.entries && t.entries[t.mapped[key]].refresh == UnderWay(s, key)
  {
    EnsureKeepsInv(s, key);
    assert KeyOk(s, key);
  }

  /**
   * A response that arrives for a refresh still under way resolves every unanswered lookup of it, and the entry keeps the
   * catalog unless it was retired; one for a refresh that was given up is stored nowhere and answers nobody.
   */
  lemma ResponseIsDelivered(trace: seq<Cache>, steps: seq<Step>, i: nat, r: nat, models: seq<string>, w: nat)
    requires IsRun(trace, steps) && i < |steps| && steps[i] == DoFetched(r, models, false)
    ensures r in trace[i].refreshes && var s, t, snapshot, e := trace[i], trace[i + 1], Snapshot(models, r, trace[i].clock), trace[i].refreshes[r].entry;
      && e in s.entries && e in t.entries
      && (w in s.lookups && s.lookups[w].refresh == Some(r) && s.lookups[w].outcome.None? ==>
            !s.refreshes[r].aborted && w in t.lookups && t.lookups[w].outcome == Some(Resolved(snapshot)))
      && t.entries[e].snapshot == (if s.refreshes[r].aborted || s.entries[e].retired then s.entries[e].snapshot else Some(snapshot))
      && (forall other | other in s.entries && other != e :: other in t.entries && t.entries[other] == s.entries[other])
  {
    RunKeepsInv(trace[..i + 1], steps[..i]);
    StepAnswers(trace[i], steps[i], w);
    assert RefreshOk(trace[i], r) && LookupOk(trace[i], w);
  }

  // ---------------------------------------------------------------- what the cache holds

  /** The entry of the key waits for this refresh, and its account has not moved on to another credential. */
  predicate IsCurrentFor(s: Cache, key: Key, r: nat) {
    && key in s.mapped && s.mapped[key] in s.entries && !s.entries[s.mapped[key]].retired
    && r in s.refreshes && s.refreshes[r].entry == s.mapped[key]
  }

  predicate HasCurrentEntry(s: Cache, key: Key) {
    key in s.mapped && s.mapped[key] in s.entries && !s.entries[s.mapped[key]].retired
  }

  /** What the step leaves in the cache for the key, None when it does not touch it. */
  function HeldWrite(s: Cache, step: Step, key: Key): Option<Option<Snapshot>> {
    match step
    case DoFetched(r, models, collides) =>
      if !collides && IsCurrentFor(s, key, r) && !s.refreshes[r].aborted then Some(Some(Snapshot(models, r, s.clock))) else None
    case DoClear(identity) => if key.identity == identity then Some(None) else None
    case DoForget(forgotten) => if key == forgotten then Some(None) else None
    case DoLookup(wanted, _, _) =>
      if key.identity == wanted.identity && key != wanted && !HasCurrentEntry(s, wanted) then Some(None) else None
    case _ => None
  }

  lemma EnsureHolds(s: Cache, wanted: Key, key: Key)
    requires Inv(s)
    ensures Held(EnsureEntry(s, wanted), key) ==
      if key.identity == wanted.identity && key != wanted && !HasCurrentEntry(s, wanted) then None else Held(s, key)
  {
    EnsuredHolds(s, wanted);
    assert KeyOk(s, key) && KeyOk(s, wanted);
    if key in s.mapped { assert EntryOk(s, s.mapped[key]); }
    assert EntryOk(s, s.events);
  }

  lemma LookupHolds(s: Cache, wanted: Key, force: bool, allowStale: bool, key: Key)
    requires Inv(s)
    ensures Held(StartLookup(s, wanted, force, allowStale), key) == Held(EnsureEntry(s, wanted), key)
  {
    EnsureKeepsInv(s, wanted);
  }

  lemma SettleHolds(s: Cache, r: nat, outcome: Outcome, aborted: bool, fetching: bool, key: Key)
    requires Inv(s) && r in s.refreshes
    ensures Held(Settle(s, r, outcome, aborted, fetching), key) == Held(s, key)
  {
    assert KeyOk(s, key);
  }

  lemma AbortHolds(s: Cache, w: nat, r: nat, key: Key)
    requires Inv(s) && r in s.refreshes
    ensures Held(AbortWaiter(s, w, r), key) == Held(s, key)
  {
    assert KeyOk(s, key);
  }

  lemma FetchedHolds(s: Cache, r: nat, models: seq<string>, collides: bool, key: Key)
    requires Inv(s) && r in s.refreshes && s.refreshes[r].fetching
    ensures Held(FetchSucceeded(s, r, models, collides), key) == Else(HeldWrite(s, DoFetched(r, models, collides), key), Held(s, key))
  {
    assert KeyOk(s, key) && RefreshOk(s, r);
    var snapshot := Snapshot(models, r, s.clock);
    if s.refreshes[r].aborted { SettleHolds(s, r, Rejected(AbortError), true, false, key); }
    else if collides { SettleHolds(s, r, Rejected(Collision), false, false, key); }
    else {
      StoreKeepsInv(s, s.refreshes[r].entry, snapshot);
      SettleHolds(StoreSnapshot(s, s.refreshes[r].entry, snapshot), r, Resolved(snapshot), false, false, key);
    }
  }

  lemma StepHolds(s: Cache, step: Step, key: Key)
    requires Inv(s) && Enabled(s, step)
    ensures Held(Apply(s, step), key) == Else(HeldWrite(s, step, key), Held(s, key))
  {
    match step
    case DoLookup(wanted, force, allowStale) =>
      EnsureHolds(s, wanted, key);
      LookupHolds(s, wanted, force, allowStale, key);
    case DoAbort(w) => AbortHolds(s, w, s.lookups[w].refresh.value, key);
    case DoFetched(r, models, collides) => FetchedHolds(s, r, models, collides, key);
    case DoFetchFailed(r, failure) => SettleHolds(s, r, Rejected(failure), s.refreshes[r].aborted, false, key);
    case DoTimeout(r) => SettleHolds(s, r, Rejected(HttpStatus(504)), true, s.refreshes[r].fetching, key);
    case _ =>
  }

  ghost function HeldWrites(trace: seq<Cache>, steps: seq<Step>, key: Key): seq<Option<Option<Snapshot>>>
    requires |trace| == |steps| + 1
  {
    seq(|steps|, j requires 0 <= j < |steps| => HeldWrite(trace[j], steps[j], key))
  }

  lemma OneMoreHeld(trace: seq<Cache>, steps: seq<Step>, key: Key)
    requires |trace| == |steps| + 1 && |steps| > 0
    ensures var last := |steps| - 1;
      Latest(HeldWrites(trace, steps, key)) == Or(HeldWrite(trace[last], steps[last], key), Latest(HeldWrites(trace[..|steps|], steps[..last], key)))
  {
    var last := |steps| - 1;
    OneMore(HeldWrites(trace, steps, key), HeldWrites(trace[..|steps|], steps[..last], key), HeldWrite(trace[last], steps[last], key));
  }

  lemma NextHeld(trace: seq<Cache>, steps: seq<Step>, key: Key)
    requires |trace| == |steps| + 1 && |steps| > 0
    requires var last := |steps| - 1;
      && Held(trace[|steps|], key) == Else(HeldWrite(trace[last], steps[last], key), Held(trace[last], key))
      && Held(trace[last], key) == Else(Latest(HeldWrites(trace[..|steps|], steps[..last], key)), None)
    ensures Held(trace[|steps|], key) == Else(Latest(HeldWrites(trace, steps, key)), None)
  {
    OneMoreHeld(trace, steps, key);
  }

  /**
   * Over every run the cache holds for a key exactly the catalog last delivered to its current entry, unless the account
   * was cleared, the key forgotten or another credential of the account looked up since. No step for one account touches
   * what is held for another.
   */
  lemma {:induction false} HeldIsLastDelivered(trace: seq<Cache>, steps: seq<Step>, key: Key)
    requires IsRun(trace, steps)
    ensures Held(trace[|steps|], key) == Else(Latest(HeldWrites(trace, steps, key)), None)
    decreases |steps|
  {
    if |steps| > 0 {
      var last := |steps| - 1;
      HeldIsLastDelivered(trace[..|steps|], steps[..last], key);
      LastStepHolds(trace, steps, key);
      NextHeld(trace, steps, key);
    }
  }

  lemma LastStepHolds(trace: seq<Cache>, steps: seq<Step>, key: Key)
    requires IsRun(trace, steps) && |steps| > 0
    ensures var last := |steps| - 1; Held(trace[|steps|], key) == Else(HeldWrite(trace[last], steps[last], key), Held(trace[last], key))
  {
    var last := |steps| - 1;
    RunKeepsInv(trace[..|steps|], steps[..last]);
    StepHolds(trace[last], steps[last], key);
  }
}
