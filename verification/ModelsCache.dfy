/**
 * The single-flight cache of model catalogs: one shared refresh per entry, joined by callers that may give up at any
 * moment, cut off by a timeout, and detached from the cache when the account's catalogs are cleared. Every piece of code
 * between two awaits is one step. Objects are named by the number of the event that created them, so an id is also a date.
 */
module ModelsCache {
  import opened Common

  const TtlMs := 60 * 60 * 1000
  const StaleMaxAgeMs := 6 * 60 * 60 * 1000
  const RefreshTimeoutMs := 30_000

  datatype Credential = Credential(enterprise: EnterpriseId, api: string, accessToken: Token)

  /** The hashed key: identity and credential, never shared between two of either. */
  datatype Key = Key(identity: Identity, credential: Credential)

  /** A fetched catalog; `refresh` is the refresh that fetched it, named by the moment its request went out. */
  datatype Snapshot = Snapshot(models: seq<string>, refresh: nat, fetchedAt: nat)

  datatype Entry = Entry(key: Key, retired: bool, snapshot: Option<Snapshot>, refresh: Option<nat>)

  /** `armed` is the running timer, `fetching` the unanswered request. */
  datatype Refresh = Refresh(entry: nat, deadline: nat, armed: bool, aborted: bool, fetching: bool, waiters: set<nat>)

  datatype Failure = Collision | HttpStatus(status: nat) | AbortError | OtherError

  datatype Outcome = Served(snapshot: Snapshot) | Resolved(snapshot: Snapshot) | Rejected(failure: Failure)

  /** One call of `lookupModelsSnapshot`: what it read before its await, the refresh it joined and how that ended. */
  datatype Lookup = Lookup(
    key: Key, at: nat, cleared: nat, captured: Option<Snapshot>, allowStale: bool, refresh: Option<nat>, outcome: Option<Outcome>)

  /** `settlements` counts the resolve and reject calls per waiter; `cleared` is the event of each identity's last clear. */
  datatype Cache = Cache(
    clock: nat, events: nat, mapped: map<Key, nat>, entries: map<nat, Entry>, refreshes: map<nat, Refresh>,
    lookups: map<nat, Lookup>, settlements: multiset<nat>, cleared: map<Identity, nat>)

  // ---------------------------------------------------------------- finding or creating the entry

  predicate Maps(mapped: map<Key, nat>, k: Key, e: nat) {
    k in mapped && mapped[k] == e
  }

  /** The entry of another credential of the same account. */
  predicate IsRival(s: Cache, key: Key, e: nat) {
    && e in s.entries && s.entries[e].key != key && s.entries[e].key.identity == key.identity
    && Maps(s.mapped, s.entries[e].key, e)
  }

  predicate HasRefresh(s: Cache, e: nat) {
    e in s.entries && s.entries[e].refresh.Some?
  }

  function RetireRivals(s: Cache, key: Key): Cache {
    s.(entries := map e | e in s.entries ::
         if IsRival(s, key, e) then s.entries[e].(retired := true, snapshot := None) else s.entries[e],
       mapped := map k | k in s.mapped && !(k != key && k.identity == key.identity && !HasRefresh(s, s.mapped[k])) :: s.mapped[k])
  }

  predicate HasLiveEntry(s: Cache, key: Key) {
    key in s.mapped && s.mapped[key] in s.entries && !s.entries[s.mapped[key]].retired
  }

  /** `modelsCacheEntry`: afterwards `key` maps to an entry that is not retired. */
  function EnsureEntry(s: Cache, key: Key): Cache {
    if HasLiveEntry(s, key) then s
    else
      var t := RetireRivals(s, key);
      if key in s.mapped && s.mapped[key] in s.entries
      then t.(entries := t.entries[s.mapped[key] := t.entries[s.mapped[key]].(retired := false)])
      else t.(entries := t.entries[s.events := Entry(key, false, None, None)], mapped := t.mapped[key := s.events], events := s.events + 1)
  }

  // ---------------------------------------------------------------- joining and starting a refresh

  predicate Usable(snapshot: Option<Snapshot>, force: bool, clock: nat) {
    !force && snapshot.Some? && snapshot.value.fetchedAt + TtlMs > clock
  }

  /** `refreshModelsSnapshot`: the lookup named `s.events` joins the entry's refresh, or starts one under its own name. */
  function JoinRefresh(s: Cache, e: nat, allowStale: bool): Cache
    requires e in s.entries
  {
    var entry := s.entries[e];
    var w := s.events;
    var r := if entry.refresh.Some? then entry.refresh.value else w;
    var refresh := if r in s.refreshes then s.refreshes[r] else Refresh(e, s.clock + RefreshTimeoutMs, true, false, true, {});
    s.(entries := s.entries[e := entry.(refresh := Some(r))],
       refreshes := s.refreshes[r := refresh.(waiters := refresh.waiters + {w})],
       lookups := s.lookups[w := Lookup(entry.key, s.clock, LastCleared(s, entry.key.identity), entry.snapshot, allowStale, Some(r), None)],
       events := w + 1)
  }

  function LastCleared(s: Cache, identity: Identity): nat {
    if identity in s.cleared then s.cleared[identity] else 0
  }

  function ServeCached(s: Cache, e: nat, allowStale: bool): Cache
    requires e in s.entries && s.entries[e].snapshot.Some?
  {
    var entry := s.entries[e];
    s.(lookups := s.lookups[s.events := Lookup(entry.key, s.clock, LastCleared(s, entry.key.identity), entry.snapshot, allowStale, None,
                                               Some(Served(entry.snapshot.value)))],
       events := s.events + 1)
  }

  /** The part of `lookupModelsSnapshot` before its await. */
  function StartLookup(s: Cache, key: Key, force: bool, allowStale: bool): Cache {
    var t := EnsureEntry(s, key);
    if key !in t.mapped || t.mapped[key] !in t.entries then t
    else if Usable(t.entries[t.mapped[key]].snapshot, force, t.clock) then ServeCached(t, t.mapped[key], allowStale)
    else JoinRefresh(t, t.mapped[key], allowStale)
  }

  // ---------------------------------------------------------------- settling

  function Detach(s: Cache, e: nat, r: nat): map<nat, Entry> {
    if e in s.entries && s.entries[e].refresh == Some(r) then s.entries[e := s.entries[e].(refresh := None)] else s.entries
  }

  /** A retired entry leaves the cache with its last refresh, unless its key already belongs to another entry. */
  function DropRetired(mapped: map<Key, nat>, entries: map<nat, Entry>, e: nat): map<Key, nat> {
    if e in entries && entries[e].retired && entries[e].refresh.None? && Maps(mapped, entries[e].key, e)
    then mapped - {entries[e].key} else mapped
  }

  function Answer(lookups: map<nat, Lookup>, waiters: set<nat>, outcome: Outcome): map<nat, Lookup> {
    map w | w in lookups :: if w in waiters then lookups[w].(outcome := Some(outcome)) else lookups[w]
  }

  /** `settleModelsRefresh`; `aborted` and `fetching` are the flags the refresh is left with. */
  function Settle(s: Cache, r: nat, outcome: Outcome, aborted: bool, fetching: bool): Cache
    requires r in s.refreshes
  {
    var refresh := s.refreshes[r];
    var entries := Detach(s, refresh.entry, r);
    s.(entries := entries,
       mapped := DropRetired(s.mapped, entries, refresh.entry),
       refreshes := s.refreshes[r := refresh.(armed := false, aborted := aborted, fetching := fetching, waiters := {})],
       lookups := Answer(s.lookups, refresh.waiters, outcome),
       settlements := s.settlements + multiset(refresh.waiters))
  }

  function TimedOut(s: Cache, r: nat): Cache
    requires r in s.refreshes
  {
    Settle(s, r, Rejected(HttpStatus(504)), true, s.refreshes[r].fetching)
  }

  function FetchFailed(s: Cache, r: nat, failure: Failure): Cache
    requires r in s.refreshes
  {
    Settle(s, r, Rejected(failure), s.refreshes[r].aborted, false)
  }

  function StoreSnapshot(s: Cache, e: nat, snapshot: Snapshot): Cache {
    if e in s.entries && !s.entries[e].retired
    then s.(entries := s.entries[e := s.entries[e].(snapshot := Some(snapshot))]) else s
  }

  /** The response arrived; indexing it may find two models with one id. */
  function FetchSucceeded(s: Cache, r: nat, models: seq<string>, collides: bool): Cache
    requires r in s.refreshes
  {
    if s.refreshes[r].aborted then FetchFailed(s, r, AbortError)
    else if collides then FetchFailed(s, r, Collision)
    else
      var snapshot := Snapshot(models, r, s.clock);
      Settle(StoreSnapshot(s, s.refreshes[r].entry, snapshot), r, Resolved(snapshot), false, false)
  }

  /** The caller's own signal: the last waiter to leave takes the refresh with it. */
  function AbortWaiter(s: Cache, w: nat, r: nat): Cache
    requires r in s.refreshes
  {
    var refresh := s.refreshes[r];
    var left := refresh.waiters - {w};
    var t := s.(lookups := Answer(s.lookups, {w}, Rejected(AbortError)), settlements := s.settlements + multiset{w});
    if left != {} then t.(refreshes := s.refreshes[r := refresh.(waiters := left)])
    else
      var entries := Detach(s, refresh.entry, r);
      t.(entries := entries,
         mapped := DropRetired(s.mapped, entries, refresh.entry),
         refreshes := s.refreshes[r := refresh.(armed := false, aborted := true, waiters := {})])
  }

  function Clear(s: Cache, identity: Identity): Cache {
    s.(mapped := map k | k in s.mapped && k.identity != identity :: s.mapped[k],
       cleared := s.cleared[identity := s.events], events := s.events + 1)
  }

  // ---------------------------------------------------------------- what a lookup returns

  datatype Status = Fresh | Cached | Stale

  datatype Returned = Catalog(snapshot: Snapshot, status: Status) | Thrown(failure: Failure)

  predicate IsFinal(failure: Failure) {
    failure == Collision || failure == HttpStatus(401) || failure == HttpStatus(403) || failure == HttpStatus(429)
  }

  /** The part of `lookupModelsSnapshot` after its await; the caller's signal may have fired in between. */
  function Return(l: Lookup, signalAborted: bool): Returned
    requires l.outcome.Some?
  {
    match l.outcome.value
    case Served(snapshot) => Catalog(snapshot, Cached)
    case Resolved(snapshot) => Catalog(snapshot, Fresh)
    case Rejected(failure) =>
      if signalAborted then Thrown(AbortError)
      else if IsFinal(failure) then Thrown(failure)
      else if l.allowStale && l.captured.Some? && l.at - l.captured.value.fetchedAt <= StaleMaxAgeMs then Catalog(l.captured.value, Stale)
      else Thrown(failure)
  }

  // ---------------------------------------------------------------- steps

  /** `DoForget` is the removal of a key whose credential was rejected. Time passes only up to the next armed deadline. */
  datatype Step =
    | DoLookup(key: Key, force: bool, allowStale: bool)
    | DoAbort(lookup: nat)
    | DoFetched(refresh: nat, models: seq<string>, collides: bool)
    | DoFetchFailed(refresh: nat, failure: Failure)
    | DoTimeout(refresh: nat)
    | DoClear(identity: Identity)
    | DoForget(key: Key)
    | DoTick(ms: nat)

  /** The abort listener is installed while the lookup waits and removed when it settles. */
  predicate Waits(s: Cache, w: nat) {
    && w in s.lookups && s.lookups[w].refresh.Some? && s.lookups[w].refresh.value in s.refreshes
    && w in s.refreshes[s.lookups[w].refresh.value].waiters
  }

  ghost predicate Enabled(s: Cache, step: Step) {
    match step
    case DoAbort(w) => Waits(s, w)
    case DoFetched(r, _, _) => r in s.refreshes && s.refreshes[r].fetching
    case DoFetchFailed(r, _) => r in s.refreshes && s.refreshes[r].fetching
    case DoTimeout(r) => r in s.refreshes && s.refreshes[r].armed && s.clock >= s.refreshes[r].deadline
    case DoTick(ms) => forall r | r in s.refreshes && s.refreshes[r].armed :: s.clock + ms <= s.refreshes[r].deadline
    case _ => true
  }

  ghost function Apply(s: Cache, step: Step): Cache
    requires Enabled(s, step)
  {
    match step
    case DoLookup(key, force, allowStale) => StartLookup(s, key, force, allowStale)
    case DoAbort(w) => AbortWaiter(s, w, s.lookups[w].refresh.value)
    case DoFetched(r, models, collides) => FetchSucceeded(s, r, models, collides)
    case DoFetchFailed(r, failure) => FetchFailed(s, r, failure)
    case DoTimeout(r) => TimedOut(s, r)
    case DoClear(identity) => Clear(s, identity)
    case DoForget(key) => s.(mapped := s.mapped - {key})
    case DoTick(ms) => s.(clock := s.clock + ms)
  }

  /** Event 0 is the start of the process. */
  ghost predicate Init(s: Cache) {
    s == Cache(0, 1, map[], map[], map[], map[], multiset{}, map[])
  }

  ghost predicate IsRun(trace: seq<Cache>, steps: seq<Step>) {
    && |trace| == |steps| + 1 && Init(trace[0])
    && forall i | 0 <= i < |steps| :: Enabled(trace[i], steps[i]) && trace[i + 1] == Apply(trace[i], steps[i])
  }

  // ---------------------------------------------------------------- the invariant

  /** A retired entry holds no catalog, and a catalog was fetched by a refresh started after the entry was created. */
  predicate EntryOk(s: Cache, e: nat) {
    e in s.entries ==>
      var entry := s.entries[e];
      && e < s.events
      && (entry.retired ==> entry.snapshot.None?)
      && (entry.snapshot.Some? ==> e <= entry.snapshot.value.refresh)
      && (entry.refresh.Some? ==> entry.refresh.value in s.refreshes && s.refreshes[entry.refresh.value].entry == e)
  }

  predicate Attached(s: Cache, r: nat) {
    && r in s.refreshes && s.refreshes[r].entry in s.entries
    && s.entries[s.refreshes[r].entry].refresh == Some(r)
  }

  /** An attached refresh is live; a detached one has no waiters, no timer, and can no longer deliver a catalog. */
  predicate RefreshOk(s: Cache, r: nat) {
    r in s.refreshes ==>
      var refresh := s.refreshes[r];
      && refresh.entry in s.entries && refresh.entry <= r < s.events && refresh.deadline <= s.clock + RefreshTimeoutMs
      && if Attached(s, r)
         then refresh.armed && !refresh.aborted && refresh.fetching && refresh.waiters != {} && s.clock <= refresh.deadline
         else refresh.waiters == {} && !refresh.armed && (refresh.aborted || !refresh.fetching)
  }

  /** An unsettled lookup waits for its refresh, which ends within the timeout; nothing it can return predates the last clear. */
  predicate LookupOk(s: Cache, w: nat) {
    && (w in s.lookups ==>
          var l := s.lookups[w];
          && w < s.events
          && (l.captured.Some? ==> l.cleared < l.captured.value.refresh)
          && (l.refresh.Some? ==>
                && l.refresh.value in s.refreshes && l.cleared < l.refresh.value
                && s.refreshes[l.refresh.value].deadline <= l.at + RefreshTimeoutMs)
          && (l.outcome.None? ==> Waits(s, w) && w !in s.settlements)
          && (l.outcome.Some? && l.outcome.value.Served? ==> l.captured == Some(l.outcome.value.snapshot) && l.at < l.outcome.value.snapshot.fetchedAt + TtlMs)
          && (l.outcome.Some? && l.outcome.value.Resolved? ==> l.refresh == Some(l.outcome.value.snapshot.refresh)))
    && s.settlements[w] <= 1
    && (w in s.settlements ==> w in s.lookups)
  }

  predicate WaiterOk(s: Cache, r: nat, w: nat) {
    r in s.refreshes && w in s.refreshes[r].waiters ==> w in s.lookups && s.lookups[w].refresh == Some(r) && s.lookups[w].outcome.None?
  }

  /** A mapped entry is the key's own, was created after the account's last clear, and is kept when retired only for its refresh. */
  predicate KeyOk(s: Cache, k: Key) {
    && LastCleared(s, k.identity) < s.events
    && (k in s.mapped ==>
          && s.mapped[k] in s.entries && s.entries[s.mapped[k]].key == k
          && LastCleared(s, k.identity) < s.mapped[k]
          && (s.entries[s.mapped[k]].retired ==> s.entries[s.mapped[k]].refresh.Some?))
  }

  /** At most one credential of an account is current. */
  predicate PairOk(s: Cache, k: Key, k': Key) {
    HasLiveEntry(s, k) && HasLiveEntry(s, k') && k.identity == k'.identity ==> k == k'
  }

  ghost predicate Inv(s: Cache) {
    && (forall e :: EntryOk(s, e)) && (forall r :: RefreshOk(s, r)) && (forall w :: LookupOk(s, w))
    && (forall r, w :: WaiterOk(s, r, w)) && (forall k :: KeyOk(s, k)) && forall k, k' :: PairOk(s, k, k')
  }

  // ---------------------------------------------------------------- finding the entry keeps the invariant

  lemma RetireKeepsInv(s: Cache, key: Key)
    requires Inv(s)
    ensures Inv(RetireRivals(s, key))
  {
    var t := RetireRivals(s, key);
    forall e ensures EntryOk(t, e) { assert EntryOk(s, e); }
    forall r ensures RefreshOk(t, r) { assert RefreshOk(s, r); }
    forall w ensures LookupOk(t, w) { assert LookupOk(s, w); }
    forall r, w ensures WaiterOk(t, r, w) { assert WaiterOk(s, r, w); }
    forall k ensures KeyOk(t, k) { assert KeyOk(s, k); }
    forall k, k' ensures PairOk(t, k, k') { assert PairOk(s, k, k') && KeyOk(s, k) && KeyOk(s, k'); }
  }

  lemma RetireLeavesNoneLive(s: Cache, key: Key, k: Key)
    requires KeyOk(s, k) && !HasLiveEntry(s, key) && k.identity == key.identity
    ensures !HasLiveEntry(RetireRivals(s, key), k)
  {
  }

  lemma EnsureKeepsInv(s: Cache, key: Key)
    requires Inv(s)
    ensures Inv(EnsureEntry(s, key)) && HasLiveEntry(EnsureEntry(s, key), key)
  {
    if !HasLiveEntry(s, key) {
      RetireKeepsInv(s, key);
      forall k: Key | k.identity == key.identity ensures !HasLiveEntry(RetireRivals(s, key), k) {
        assert KeyOk(s, k);
        RetireLeavesNoneLive(s, key, k);
      }
      assert KeyOk(s, key);
      if key in s.mapped { RevivedKeepsInv(RetireRivals(s, key), key); } else { CreatedKeepsInv(RetireRivals(s, key), key); }
    }
  }

  lemma RevivedKeepsInv(s: Cache, key: Key)
    requires Inv(s) && key in s.mapped && s.mapped[key] in s.entries
    requires forall k: Key | k.identity == key.identity :: !HasLiveEntry(s, k)
    ensures Inv(s.(entries := s.entries[s.mapped[key] := s.entries[s.mapped[key]].(retired := false)]))
  {
    var t := s.(entries := s.entries[s.mapped[key] := s.entries[s.mapped[key]].(retired := false)]);
    forall e ensures EntryOk(t, e) { assert EntryOk(s, e); }
    forall r ensures RefreshOk(t, r) { assert RefreshOk(s, r); }
    forall w ensures LookupOk(t, w) { assert LookupOk(s, w); }
    forall r, w ensures WaiterOk(t, r, w) { assert WaiterOk(s, r, w); }
    forall k ensures KeyOk(t, k) { assert KeyOk(s, k); }
    forall k, k' ensures PairOk(t, k, k') { assert PairOk(s, k, k') && KeyOk(s, k) && KeyOk(s, k') && KeyOk(s, key); }
  }

  lemma CreatedKeepsInv(s: Cache, key: Key)
    requires Inv(s) && key !in s.mapped
    requires forall k: Key | k.identity == key.identity :: !HasLiveEntry(s, k)
    ensures Inv(s.(entries := s.entries[s.events := Entry(key, false, None, None)], mapped := s.mapped[key := s.events], events := s.events + 1))
  {
    var t := s.(entries := s.entries[s.events := Entry(key, false, None, None)], mapped := s.mapped[key := s.events], events := s.events + 1);
    assert EntryOk(s, s.events);
    forall e ensures EntryOk(t, e) { assert EntryOk(s, e); }
    forall r ensures RefreshOk(t, r) { assert RefreshOk(s, r); }
    forall w ensures LookupOk(t, w) { assert LookupOk(s, w); }
    forall r, w ensures WaiterOk(t, r, w) { assert WaiterOk(s, r, w); }
    forall k ensures KeyOk(t, k) { assert KeyOk(s, k); }
    forall k, k' ensures PairOk(t, k, k') { assert PairOk(s, k, k') && KeyOk(s, k) && KeyOk(s, k'); }
  }

  // ---------------------------------------------------------------- joining

  lemma ServeKeepsInv(s: Cache, e: nat, allowStale: bool)
    requires Inv(s) && e in s.entries && Maps(s.mapped, s.entries[e].key, e) && Usable(s.entries[e].snapshot, false, s.clock)
    ensures Inv(ServeCached(s, e, allowStale))
  {
    var t := ServeCached(s, e, allowStale);
    assert LookupOk(s, s.events) && KeyOk(s, s.entries[e].key) && EntryOk(s, e);
    forall e ensures EntryOk(t, e) { assert EntryOk(s, e); }
    forall r ensures RefreshOk(t, r) { assert RefreshOk(s, r); }
    forall w ensures LookupOk(t, w) { assert LookupOk(s, w); }
    forall r, w ensures WaiterOk(t, r, w) { assert WaiterOk(s, r, w); }
    forall k ensures KeyOk(t, k) { assert KeyOk(s, k); }
    forall k, k' ensures PairOk(t, k, k') { assert PairOk(s, k, k'); }
  }

  lemma JoinKeepsInv(s: Cache, e: nat, allowStale: bool)
    requires Inv(s) && e in s.entries && Maps(s.mapped, s.entries[e].key, e)
    ensures Inv(JoinRefresh(s, e, allowStale))
  {
    var t := JoinRefresh(s, e, allowStale);
    var r0 := if s.entries[e].refresh.Some? then s.entries[e].refresh.value else s.events;
    assert EntryOk(s, e) && RefreshOk(s, r0) && KeyOk(s, s.entries[e].key) && LookupOk(s, s.events);
    forall e' ensures EntryOk(t, e') { assert EntryOk(s, e'); }
    forall r ensures RefreshOk(t, r) { assert RefreshOk(s, r); }
    forall w ensures LookupOk(t, w) { assert LookupOk(s, w); }
    forall r, w ensures WaiterOk(t, r, w) { assert WaiterOk(s, r, w); }
    forall k ensures KeyOk(t, k) { assert KeyOk(s, k); }
    forall k, k' ensures PairOk(t, k, k') { assert PairOk(s, k, k'); }
  }

  lemma LookupKeepsInv(s: Cache, key: Key, force: bool, allowStale: bool)
    requires Inv(s)
    ensures Inv(StartLookup(s, key, force, allowStale))
  {
    EnsureKeepsInv(s, key);
    var t := EnsureEntry(s, key);
    assert KeyOk(t, key);
    if Usable(t.entries[t.mapped[key]].snapshot, force, t.clock) { ServeKeepsInv(t, t.mapped[key], allowStale); }
    else { JoinKeepsInv(t, t.mapped[key], allowStale); }
  }

  // ---------------------------------------------------------------- settling

  lemma SettleKeepsInv(s: Cache, r: nat, outcome: Outcome, aborted: bool, fetching: bool)
    requires Inv(s) && r in s.refreshes && (aborted || !fetching)
    requires !outcome.Served? && (outcome.Resolved? ==> outcome.snapshot.refresh == r)
    ensures Inv(Settle(s, r, outcome, aborted, fetching))
  {
    var t := Settle(s, r, outcome, aborted, fetching);
    var e0 := s.refreshes[r].entry;
    assert RefreshOk(s, r) && EntryOk(s, e0);
    forall e ensures EntryOk(t, e) { assert EntryOk(s, e); }
    forall r' ensures RefreshOk(t, r') { assert RefreshOk(s, r'); }
    forall w ensures LookupOk(t, w) { SettledLookupOk(s, r, outcome, aborted, fetching, w); }
    forall r', w ensures WaiterOk(t, r', w) { assert WaiterOk(s, r', w) && WaiterOk(s, r, w); }
    forall k ensures KeyOk(t, k) { assert KeyOk(s, k) && KeyOk(s, s.entries[e0].key); }
    forall k, k' ensures PairOk(t, k, k') { assert PairOk(s, k, k'); }
  }

  lemma SettledLookupOk(s: Cache, r: nat, outcome: Outcome, aborted: bool, fetching: bool, w: nat)
    requires Inv(s) && r in s.refreshes && (aborted || !fetching)
    requires !outcome.Served? && (outcome.Resolved? ==> outcome.snapshot.refresh == r)
    ensures LookupOk(Settle(s, r, outcome, aborted, fetching), w)
  {
    assert LookupOk(s, w) && WaiterOk(s, r, w);
    assert multiset(s.refreshes[r].waiters)[w] == if w in s.refreshes[r].waiters then 1 else 0;
  }

  lemma StoreKeepsInv(s: Cache, e: nat, snapshot: Snapshot)
    requires Inv(s) && e <= snapshot.refresh
    ensures Inv(StoreSnapshot(s, e, snapshot))
  {
    var t := StoreSnapshot(s, e, snapshot);
    forall e' ensures EntryOk(t, e') { assert EntryOk(s, e'); }
    forall r ensures RefreshOk(t, r) { assert RefreshOk(s, r); }
    forall w ensures LookupOk(t, w) { assert LookupOk(s, w); }
    forall r, w ensures WaiterOk(t, r, w) { assert WaiterOk(s, r, w); }
    forall k ensures KeyOk(t, k) { assert KeyOk(s, k); }
    forall k, k' ensures PairOk(t, k, k') { assert PairOk(s, k, k'); }
  }

  lemma FetchedKeepsInv(s: Cache, r: nat, models: seq<string>, collides: bool)
    requires Inv(s) && r in s.refreshes && s.refreshes[r].fetching
    ensures Inv(FetchSucceeded(s, r, models, collides))
  {
    var snapshot := Snapshot(models, r, s.clock);
    assert RefreshOk(s, r);
    if s.refreshes[r].aborted { SettleKeepsInv(s, r, Rejected(AbortError), true, false); }
    else if collides { SettleKeepsInv(s, r, Rejected(Collision), false, false); }
    else {
      StoreKeepsInv(s, s.refreshes[r].entry, snapshot);
      SettleKeepsInv(StoreSnapshot(s, s.refreshes[r].entry, snapshot), r, Resolved(snapshot), false, false);
    }
  }

  /** The abort of a waiter that is not the last one. */
  lemma LeaveKeepsInv(s: Cache, w: nat)
    requires Inv(s) && Waits(s, w) && s.refreshes[s.lookups[w].refresh.value].waiters != {w}
    ensures Inv(AbortWaiter(s, w, s.lookups[w].refresh.value))
  {
    var r := s.lookups[w].refresh.value;
    var t := AbortWaiter(s, w, r);
    assert RefreshOk(s, r) && WaiterOk(s, r, w) && LookupOk(s, w);
    forall e ensures EntryOk(t, e) { assert EntryOk(s, e); }
    forall r' ensures RefreshOk(t, r') { assert RefreshOk(s, r'); }
    forall w' ensures LookupOk(t, w') { assert LookupOk(s, w'); }
    forall r', w' ensures WaiterOk(t, r', w') { assert WaiterOk(s, r', w'); }
    forall k ensures KeyOk(t, k) { assert KeyOk(s, k); }
    forall k, k' ensures PairOk(t, k, k') { assert PairOk(s, k, k'); }
  }

  /** The last waiter to leave settles the refresh as a timeout would, rejecting only itself. */
  lemma LastAbortSettles(s: Cache, w: nat)
    requires Inv(s) && Waits(s, w) && s.refreshes[s.lookups[w].refresh.value].waiters == {w}
    ensures var r := s.lookups[w].refresh.value;
      AbortWaiter(s, w, r) == Settle(s, r, Rejected(AbortError), true, s.refreshes[r].fetching)
  {
    var r := s.lookups[w].refresh.value;
    assert s.refreshes[r].waiters - {w} == {};
    assert multiset(s.refreshes[r].waiters) == multiset{w};
  }

  lemma AbortKeepsInv(s: Cache, w: nat)
    requires Inv(s) && Waits(s, w)
    ensures Inv(AbortWaiter(s, w, s.lookups[w].refresh.value))
  {
    var r := s.lookups[w].refresh.value;
    if s.refreshes[r].waiters == {w} {
      LastAbortSettles(s, w);
      SettleKeepsInv(s, r, Rejected(AbortError), true, s.refreshes[r].fetching);
    } else {
      LeaveKeepsInv(s, w);
    }
  }

  // ---------------------------------------------------------------- removing keys, time

  lemma ClearKeepsInv(s: Cache, identity: Identity)
    requires Inv(s)
    ensures Inv(Clear(s, identity))
  {
    var t := Clear(s, identity);
    forall e ensures EntryOk(t, e) { assert EntryOk(s, e); }
    forall r ensures RefreshOk(t, r) { assert RefreshOk(s, r); }
    forall w ensures LookupOk(t, w) { assert LookupOk(s, w); }
    forall r, w ensures WaiterOk(t, r, w) { assert WaiterOk(s, r, w); }
    forall k ensures KeyOk(t, k) { assert KeyOk(s, k); }
    forall k, k' ensures PairOk(t, k, k') { assert PairOk(s, k, k'); }
  }

  lemma ForgetKeepsInv(s: Cache, key: Key)
    requires Inv(s)
    ensures Inv(s.(mapped := s.mapped - {key}))
  {
    var t := s.(mapped := s.mapped - {key});
    forall e ensures EntryOk(t, e) { assert EntryOk(s, e); }
    forall r ensures RefreshOk(t, r) { assert RefreshOk(s, r); }
    forall w ensures LookupOk(t, w) { assert LookupOk(s, w); }
    forall r, w ensures WaiterOk(t, r, w) { assert WaiterOk(s, r, w); }
    forall k ensures KeyOk(t, k) { assert KeyOk(s, k); }
    forall k, k' ensures PairOk(t, k, k') { assert PairOk(s, k, k'); }
  }

  lemma TickKeepsInv(s: Cache, ms: nat)
    requires Inv(s) && Enabled(s, DoTick(ms))
    ensures Inv(s.(clock := s.clock + ms))
  {
    var t := s.(clock := s.clock + ms);
    forall e ensures EntryOk(t, e) { assert EntryOk(s, e); }
    forall r ensures RefreshOk(t, r) { assert RefreshOk(s, r); }
    forall w ensures LookupOk(t, w) { assert LookupOk(s, w); }
    forall r, w ensures WaiterOk(t, r, w) { assert WaiterOk(s, r, w); }
    forall k ensures KeyOk(t, k) { assert KeyOk(s, k); }
    forall k, k' ensures PairOk(t, k, k') { assert PairOk(s, k, k'); }
  }

  lemma StepKeepsInv(s: Cache, step: Step)
    requires Inv(s) && Enabled(s, step)
    ensures Inv(Apply(s, step))
  {
    match step
    case DoLookup(key, force, allowStale) => LookupKeepsInv(s, key, force, allowStale);
    case DoAbort(w) => AbortKeepsInv(s, w);
    case DoFetched(r, models, collides) => FetchedKeepsInv(s, r, models, collides);
    case DoFetchFailed(r, failure) => SettleKeepsInv(s, r, Rejected(failure), s.refreshes[r].aborted, false);
    case DoTimeout(r) => SettleKeepsInv(s, r, Rejected(HttpStatus(504)), true, s.refreshes[r].fetching);
    case DoClear(identity) => ClearKeepsInv(s, identity);
    case DoForget(key) => ForgetKeepsInv(s, key);
    case DoTick(ms) => TickKeepsInv(s, ms);
  }

  lemma {:induction false} RunKeepsInv(trace: seq<Cache>, steps: seq<Step>)
    requires IsRun(trace, steps)
    ensures Inv(trace[|steps|])
    decreases |steps|
  {
    if |steps| > 0 {
      var last := |steps| - 1;
      RunKeepsInv(trace[..|steps|], steps[..last]);
      StepKeepsInv(trace[last], steps[last]);
    }
  }

  // ---------------------------------------------------------------- theorems over whole runs

  /** At most one credential of an account has a current catalog, and an entry that lost that place holds none. */
  lemma OneCurrentEntryPerAccount(trace: seq<Cache>, steps: seq<Step>, k: Key, k': Key, e: nat)
    requires IsRun(trace, steps)
    ensures var s := trace[|steps|];
      && (HasLiveEntry(s, k) && HasLiveEntry(s, k') && k.identity == k'.identity ==> k == k')
      && (e in s.entries && s.entries[e].retired ==> s.entries[e].snapshot.None?)
      && (k in s.mapped ==> s.mapped[k] in s.entries && s.entries[s.mapped[k]].key == k)
  {
    RunKeepsInv(trace, steps);
    assert PairOk(trace[|steps|], k, k') && EntryOk(trace[|steps|], e) && KeyOk(trace[|steps|], k);
  }

  /** Every waiter is resolved or rejected at most once, and has been by the time the refresh timeout has passed. */
  lemma WaitersSettleOnceAndInTime(trace: seq<Cache>, steps: seq<Step>, w: nat)
    requires IsRun(trace, steps)
    ensures var s := trace[|steps|];
      && s.settlements[w] <= 1
      && (w in s.lookups && s.lookups[w].outcome.None? ==> s.clock <= s.lookups[w].at + RefreshTimeoutMs && w !in s.settlements)
  {
    RunKeepsInv(trace, steps);
    var s := trace[|steps|];
    assert LookupOk(s, w);
    if w in s.lookups && s.lookups[w].outcome.None? {
      assert RefreshOk(s, s.lookups[w].refresh.value);
    }
  }

  /**
   * What a finished lookup may return: from the cache only an unexpired catalog, fresh only what its own refresh fetched,
   * and stale only after a failure that does not speak against the credential, at most six hours old.
   */
  lemma LookupsReturnUsableCatalogs(trace: seq<Cache>, steps: seq<Step>, w: nat, signalAborted: bool)
    requires IsRun(trace, steps) && w in trace[|steps|].lookups && trace[|steps|].lookups[w].outcome.Some?
    ensures var l := trace[|steps|].lookups[w]; var result := Return(l, signalAborted);
      result.Catalog? ==>
        match result.status
        case Cached => l.at < result.snapshot.fetchedAt + TtlMs
        case Fresh => l.refresh == Some(result.snapshot.refresh)
        case Stale => l.at - result.snapshot.fetchedAt <= StaleMaxAgeMs && l.outcome.value.Rejected? && !IsFinal(l.outcome.value.failure)
  {
    RunKeepsInv(trace, steps);
    assert LookupOk(trace[|steps|], w);
  }

  // ---------------------------------------------------------------- a detached refresh

  predicate Detached(s: Cache, r: nat) {
    r in s.refreshes && !Attached(s, r)
  }

  /** Wherever the catalog of `r` is stored afterwards, it was stored before. */
  ghost predicate NothingNewFrom(s: Cache, t: Cache, r: nat) {
    forall e | e in t.entries && t.entries[e].snapshot.Some? && t.entries[e].snapshot.value.refresh == r ::
      e in s.entries && s.entries[e].snapshot == t.entries[e].snapshot
  }

  lemma EnsureKeepsDetached(s: Cache, key: Key, r: nat)
    requires Inv(s) && Detached(s, r)
    ensures Detached(EnsureEntry(s, key), r) && NothingNewFrom(s, EnsureEntry(s, key), r)
  {
    assert RefreshOk(s, r) && EntryOk(s, s.events);
  }

  lemma LookupKeepsDetached(s: Cache, key: Key, force: bool, allowStale: bool, r: nat)
    requires Inv(s) && Detached(s, r)
    ensures Detached(StartLookup(s, key, force, allowStale), r) && NothingNewFrom(s, StartLookup(s, key, force, allowStale), r)
  {
    EnsureKeepsInv(s, key);
    EnsureKeepsDetached(s, key, r);
    var t := EnsureEntry(s, key);
    assert KeyOk(t, key) && RefreshOk(t, r);
    JoinKeepsDetached(t, t.mapped[key], allowStale, r);
  }

  lemma JoinKeepsDetached(s: Cache, e: nat, allowStale: bool, r: nat)
    requires Detached(s, r) && RefreshOk(s, r) && e in s.entries
    ensures Detached(JoinRefresh(s, e, allowStale), r)
    ensures forall e' :: e' in s.entries <==> e' in JoinRefresh(s, e, allowStale).entries
    ensures forall e' | e' in s.entries :: JoinRefresh(s, e, allowStale).entries[e'].snapshot == s.entries[e'].snapshot
  {
  }

  lemma SettleKeepsDetached(s: Cache, r': nat, outcome: Outcome, aborted: bool, fetching: bool, r: nat)
    requires r' in s.refreshes && Detached(s, r)
    ensures var t := Settle(s, r', outcome, aborted, fetching); Detached(t, r) && NothingNewFrom(s, t, r)
  {
  }

  lemma FetchedKeepsDetached(s: Cache, r': nat, models: seq<string>, collides: bool, r: nat)
    requires Inv(s) && r' in s.refreshes && s.refreshes[r'].fetching && Detached(s, r)
    ensures Detached(FetchSucceeded(s, r', models, collides), r) && NothingNewFrom(s, FetchSucceeded(s, r', models, collides), r)
  {
    assert RefreshOk(s, r) && RefreshOk(s, r');
    var snapshot := Snapshot(models, r', s.clock);
    var stored := StoreSnapshot(s, s.refreshes[r'].entry, snapshot);
    if s.refreshes[r'].aborted { SettleKeepsDetached(s, r', Rejected(AbortError), true, false, r); }
    else if collides { SettleKeepsDetached(s, r', Rejected(Collision), false, false, r); }
    else { SettleKeepsDetached(stored, r', Resolved(snapshot), false, false, r); }
  }

  lemma AbortKeepsDetached(s: Cache, w: nat, r': nat, r: nat)
    requires r' in s.refreshes && Detached(s, r)
    ensures var t := AbortWaiter(s, w, r'); Detached(t, r) && NothingNewFrom(s, t, r)
  {
  }

  /** Clearing, forgetting a key and the passing of time touch neither entries nor refreshes. */
  lemma QuietKeepsDetached(s: Cache, t: Cache, r: nat)
    requires t.entries == s.entries && t.refreshes == s.refreshes && Detached(s, r)
    ensures Detached(t, r) && NothingNewFrom(s, t, r)
  {
  }

  lemma StepKeepsDetached(s: Cache, step: Step, r: nat)
    requires Inv(s) && Enabled(s, step) && Detached(s, r)
    ensures Detached(Apply(s, step), r) && NothingNewFrom(s, Apply(s, step), r)
  {
    match step
    case DoLookup(key, force, allowStale) => LookupKeepsDetached(s, key, force, allowStale, r);
    case DoAbort(w) => AbortKeepsDetached(s, w, s.lookups[w].refresh.value, r);
    case DoFetched(r', models, collides) => FetchedKeepsDetached(s, r', models, collides, r);
    case DoFetchFailed(r', failure) => SettleKeepsDetached(s, r', Rejected(failure), s.refreshes[r'].aborted, false, r);
    case DoTimeout(r') => SettleKeepsDetached(s, r', Rejected(HttpStatus(504)), true, s.refreshes[r'].fetching, r);
    case DoClear(identity) => QuietKeepsDetached(s, Clear(s, identity), r);
    case DoForget(key) => QuietKeepsDetached(s, s.(mapped := s.mapped - {key}), r);
    case DoTick(ms) => QuietKeepsDetached(s, s.(clock := s.clock + ms), r);
  }

  /**
   * Once a refresh is detached from its entry (settled, timed out, or left by its last waiter) it stays detached, keeps
   * no waiters, and no entry ever receives its catalog, however late the response arrives.
   */
  lemma {:induction false} DetachedRefreshIsDead(trace: seq<Cache>, steps: seq<Step>, i: nat, r: nat)
    requires IsRun(trace, steps) && i <= |steps| && Detached(trace[i], r)
    ensures Detached(trace[|steps|], r) && trace[|steps|].refreshes[r].waiters == {}
    ensures NothingNewFrom(trace[i], trace[|steps|], r)
    decreases |steps|
  {
    RunKeepsInv(trace, steps);
    if i < |steps| {
      var last := |steps| - 1;
      DetachedRefreshIsDead(trace[..|steps|], steps[..last], i, r);
      RunKeepsInv(trace[..|steps|], steps[..last]);
      StepKeepsDetached(trace[last], steps[last], r);
    }
    assert RefreshOk(trace[|steps|], r);
  }

  // ---------------------------------------------------------------- clearing

  lemma LookupKeepsDates(s: Cache, key: Key, force: bool, allowStale: bool)
    ensures var t := StartLookup(s, key, force, allowStale); s.events <= t.events && t.cleared == s.cleared
  {
    EnsureKeepsLookups(s, key);
    var t := EnsureEntry(s, key);
    if key in t.mapped && t.mapped[key] in t.entries { JoinKeepsDates(t, t.mapped[key], allowStale); }
  }

  lemma JoinKeepsDates(s: Cache, e: nat, allowStale: bool)
    requires e in s.entries
    ensures var t := JoinRefresh(s, e, allowStale); t.events == s.events + 1 && t.cleared == s.cleared
    ensures s.entries[e].snapshot.Some? ==> var t := ServeCached(s, e, allowStale); t.events == s.events + 1 && t.cleared == s.cleared
  {
  }

  lemma ClearKeepsDates(s: Cache, cleared: Identity, identity: Identity)
    requires KeyOk(s, Key(identity, Credential(EnterpriseId(""), "", Token(""))))
    ensures var t := Clear(s, cleared); s.events <= t.events && LastCleared(s, identity) <= LastCleared(t, identity)
  {
  }

  lemma FetchedKeepsDates(s: Cache, r: nat, models: seq<string>, collides: bool)
    requires r in s.refreshes
    ensures var t := FetchSucceeded(s, r, models, collides); t.events == s.events && t.cleared == s.cleared
  {
  }

  lemma StepKeepsDates(s: Cache, step: Step, identity: Identity)
    requires Inv(s) && Enabled(s, step)
    ensures s.events <= Apply(s, step).events && LastCleared(s, identity) <= LastCleared(Apply(s, step), identity)
  {
    match step
    case DoLookup(key, force, allowStale) => LookupKeepsDates(s, key, force, allowStale);
    case DoClear(id) => ClearKeepsDates(s, id, identity);
    case DoFetched(r, models, collides) => FetchedKeepsDates(s, r, models, collides);
    case _ =>
  }

  lemma EnsureKeepsLookups(s: Cache, key: Key)
    ensures var t := EnsureEntry(s, key); t.lookups == s.lookups && t.cleared == s.cleared && s.events <= t.events
  {
  }

  lemma StartedLookup(s: Cache, key: Key, force: bool, allowStale: bool, w: nat)
    requires Inv(s)
    ensures var t := StartLookup(s, key, force, allowStale);
      w in t.lookups ==>
        if w in s.lookups then t.lookups[w] == s.lookups[w]
        else t.lookups[w].key == key && t.lookups[w].cleared == LastCleared(s, key.identity)
  {
    EnsureKeepsInv(s, key);
    EnsureKeepsLookups(s, key);
    var t := EnsureEntry(s, key);
    assert KeyOk(t, key) && LookupOk(t, t.events);
  }

  lemma StepKeepsLookup(s: Cache, step: Step, w: nat)
    requires Inv(s) && Enabled(s, step) && w in Apply(s, step).lookups
    ensures if w in s.lookups
      then Apply(s, step).lookups[w] == s.lookups[w].(outcome := Apply(s, step).lookups[w].outcome)
      else step.DoLookup? && Apply(s, step).lookups[w].key == step.key && Apply(s, step).lookups[w].cleared == LastCleared(s, step.key.identity)
  {
    match step
    case DoLookup(key, force, allowStale) => StartedLookup(s, key, force, allowStale, w);
    case DoFetched(r, models, collides) => FetchedKeepsLookup(s, r, models, collides, w);
    case _ =>
  }

  lemma FetchedKeepsLookup(s: Cache, r: nat, models: seq<string>, collides: bool, w: nat)
    requires r in s.refreshes && w in FetchSucceeded(s, r, models, collides).lookups
    ensures w in s.lookups && var t := FetchSucceeded(s, r, models, collides); t.lookups[w] == s.lookups[w].(outcome := t.lookups[w].outcome)
  {
  }

  lemma {:induction false} ClearIsRemembered(trace: seq<Cache>, steps: seq<Step>, i: nat)
    requires IsRun(trace, steps) && i < |steps| && steps[i].DoClear?
    ensures trace[i].events <= LastCleared(trace[|steps|], steps[i].identity)
    decreases |steps|
  {
    var last := |steps| - 1;
    if i < last {
      ClearIsRemembered(trace[..|steps|], steps[..last], i);
      RunKeepsInv(trace[..|steps|], steps[..last]);
      StepKeepsDates(trace[last], steps[last], steps[i].identity);
    }
  }

  /** A lookup of the account knows every clear up to `at`: it did before, or it starts now and reads the last clear. */
  lemma NextLookupKnowsClear(s: Cache, step: Step, at: nat, w: nat)
    requires Inv(s) && Enabled(s, step) && w in Apply(s, step).lookups
    requires if w in s.lookups then at <= s.lookups[w].cleared else at <= LastCleared(s, Apply(s, step).lookups[w].key.identity)
    ensures at <= Apply(s, step).lookups[w].cleared
  {
    StepKeepsLookup(s, step, w);
  }

  /** A clear starts no lookup. */
  lemma ClearStartsNone(s: Cache, identity: Identity, w: nat)
    requires Inv(s) && w in Clear(s, identity).lookups
    ensures w <= s.events
  {
    assert LookupOk(s, w);
  }

  lemma {:induction false} LaterLookupKnowsClear(trace: seq<Cache>, steps: seq<Step>, i: nat, w: nat)
    requires IsRun(trace, steps) && i < |steps| && steps[i].DoClear?
    requires w in trace[|steps|].lookups && trace[|steps|].lookups[w].key.identity == steps[i].identity && trace[i].events < w
    ensures trace[i].events <= trace[|steps|].lookups[w].cleared
    decreases |steps|
  {
    var last := |steps| - 1;
    RunKeepsInv(trace[..|steps|], steps[..last]);
    if i == last {
      ClearStartsNone(trace[last], steps[last].identity, w);
    } else {
      ClearIsRemembered(trace[..|steps|], steps[..last], i);
      if w in trace[last].lookups {
        LookupKeepsKey(trace[last], steps[last], w);
        LaterLookupKnowsClear(trace[..|steps|], steps[..last], i, w);
      }
      NextLookupKnowsClear(trace[last], steps[last], trace[i].events, w);
    }
  }

  lemma LookupKeepsKey(s: Cache, step: Step, w: nat)
    requires Inv(s) && Enabled(s, step) && w in s.lookups && w in Apply(s, step).lookups
    ensures Apply(s, step).lookups[w].key == s.lookups[w].key
  {
    StepKeepsLookup(s, step, w);
  }

  /**
   * A lookup of an account that started after the account's catalogs were cleared returns only a catalog whose request
   * went out after the clear, whether it is served from the cache, fetched, or stale: `trace[i].events` dates the clear,
   * `w` the lookup and `refresh` the request.
   */
  lemma NothingOlderThanTheClear(trace: seq<Cache>, steps: seq<Step>, i: nat, w: nat, signalAborted: bool)
    requires IsRun(trace, steps) && i < |steps| && steps[i].DoClear?
    requires w in trace[|steps|].lookups && trace[|steps|].lookups[w].key.identity == steps[i].identity && trace[i].events < w
    requires trace[|steps|].lookups[w].outcome.Some? && Return(trace[|steps|].lookups[w], signalAborted).Catalog?
    ensures trace[i].events < Return(trace[|steps|].lookups[w], signalAborted).snapshot.refresh
  {
    LaterLookupKnowsClear(trace, steps, i, w);
    RunKeepsInv(trace, steps);
    assert LookupOk(trace[|steps|], w);
  }
}
