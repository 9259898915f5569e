/** The models cache as the program keeps it: maps changed in place, with the loops that retire, clear and settle. */
module CopilotClient {
  import opened Common
  import opened ModelsCache

  /** The retiring loop when it still has the keys `left` to visit. */
  ghost function Retiring(s: Cache, key: Key, left: set<Key>): Cache {
    s.(entries := map e | e in s.entries ::
         if IsRival(s, key, e) && s.entries[e].key !in left then s.entries[e].(retired := true, snapshot := None) else s.entries[e],
       mapped := map k | k in s.mapped && !(k !in left && k != key && k.identity == key.identity && !HasRefresh(s, s.mapped[k])) :: s.mapped[k])
  }

  lemma RetiringStarts(s: Cache, key: Key)
    ensures Retiring(s, key, s.mapped.Keys) == s && Retiring(s, key, {}) == RetireRivals(s, key)
  {
    var t := Retiring(s, key, s.mapped.Keys);
    assert t.mapped == s.mapped;
    forall e | e in s.entries ensures t.entries[e] == s.entries[e] {}
    assert t.entries == s.entries;
  }

  /** One turn of the loop; a key of another account, or `key` itself, is passed over. */
  lemma RetiringNext(s: Cache, key: Key, left: set<Key>, k: Key)
    requires k in left && left <= s.mapped.Keys && KeyOk(s, k)
    ensures var t := Retiring(s, key, left); var next := Retiring(s, key, left - {k});
      && k in t.mapped && t.mapped[k] == s.mapped[k] && t.mapped[k] in t.entries && t.entries[t.mapped[k]].refresh == s.entries[t.mapped[k]].refresh
      && if k.identity == key.identity && k != key
         then && next.entries == t.entries[t.mapped[k] := t.entries[t.mapped[k]].(retired := true, snapshot := None)]
              && next.mapped == if HasRefresh(s, t.mapped[k]) then t.mapped else t.mapped - {k}
         else next == t
  {
    var t, next := Retiring(s, key, left), Retiring(s, key, left - {k});
    if !(k.identity == key.identity && k != key) { assert next.entries == t.entries && next.mapped == t.mapped; }
  }

  lemma AnswerOneMore(lookups: map<nat, Lookup>, done: set<nat>, w: nat, outcome: Outcome)
    requires w !in done
    ensures multiset(done + {w}) == multiset(done) + multiset{w}
    ensures var t := Answer(lookups, done, outcome);
      Answer(lookups, done + {w}, outcome) == if w in t then t[w := t[w].(outcome := Some(outcome))] else t
  {
  }

  class ModelsCacheState {
    var mapped: map<Key, nat>
    var entries: map<nat, Entry>
    var refreshes: map<nat, Refresh>
    var lookups: map<nat, Lookup>
    var clock: nat
    var events: nat
    ghost var settlements: multiset<nat>
    var cleared: map<Identity, nat>

    ghost function View(): Cache
      reads this
    {
      Cache(clock, events, mapped, entries, refreshes, lookups, settlements, cleared)
    }

    ghost predicate Valid()
      reads this
    {
      Inv(View())
    }

    constructor ()
      ensures Valid() && Init(View())
    {
      mapped, entries, refreshes, lookups := map[], map[], map[], map[];
      clock, events, settlements, cleared := 0, 1, multiset{}, map[];
    }

    /** The loop of `modelsCacheEntry`: other credentials of the account lose their catalog, and their place if idle. */
    method Retire(key: Key)
      requires forall k :: KeyOk(View(), k)
      modifies this`mapped, this`entries
      ensures View() == RetireRivals(old(View()), key)
    {
      ghost var s := View();
      RetiringStarts(s, key);
      var left := mapped.Keys;
      while left != {}
        invariant left <= s.mapped.Keys
        invariant View() == Retiring(s, key, left)
        decreases |left|
      {
        var k :| k in left;
        assert KeyOk(s, k);
        RetireOne(key, k, s, left);
        left := left - {k};
      }
    }

    method RetireOne(key: Key, k: Key, ghost s: Cache, ghost left: set<Key>)
      requires k in left && left <= s.mapped.Keys && KeyOk(s, k) && View() == Retiring(s, key, left)
      modifies this`mapped, this`entries
      ensures View() == Retiring(s, key, left - {k})
    {
      RetiringNext(s, key, left, k);
      if k.identity != key.identity || k == key { return; }
      var e := mapped[k];
      entries := entries[e := entries[e].(retired := true, snapshot := None)];
      if entries[e].refresh.None? { mapped := mapped - {k}; }
    }

    method ModelsCacheEntry(key: Key) returns (e: nat)
      requires Valid()
      modifies this`mapped, this`entries, this`events
      ensures View() == EnsureEntry(old(View()), key) && key in mapped && e == mapped[key] && e in entries
    {
      ghost var s := View();
      assert KeyOk(s, key);
      if key in mapped && !entries[mapped[key]].retired { return mapped[key]; }
      Retire(key);
      assert key in mapped <==> key in s.mapped;
      if key in mapped {
        e := mapped[key];
        entries := entries[e := entries[e].(retired := false)];
      } else {
        e := events;
        entries, mapped, events := entries[e := Entry(key, false, None, None)], mapped[key := e], events + 1;
      }
    }

    method RefreshModelsSnapshot(e: nat, allowStale: bool)
      requires e in entries
      modifies this`entries, this`refreshes, this`lookups, this`events
      ensures View() == JoinRefresh(old(View()), e, allowStale)
    {
      var w := events;
      var entry := entries[e];
      var r := if entry.refresh.Some? then entry.refresh.value else w;
      if r !in refreshes { refreshes := refreshes[r := Refresh(e, clock + RefreshTimeoutMs, true, false, true, {})]; }
      entries := entries[e := entry.(refresh := Some(r))];
      refreshes := refreshes[r := refreshes[r].(waiters := refreshes[r].waiters + {w})];
      Record(w, entry, allowStale, Some(r), None);
    }

    method Record(w: nat, entry: Entry, allowStale: bool, r: Option<nat>, outcome: Option<Outcome>)
      modifies this`lookups, this`events
      ensures events == w + 1
      ensures lookups == old(lookups)[w := Lookup(entry.key, clock, LastCleared(old(View()), entry.key.identity), entry.snapshot, allowStale, r, outcome)]
    {
      lookups := lookups[w := Lookup(entry.key, clock, if entry.key.identity in cleared then cleared[entry.key.identity] else 0,
                                     entry.snapshot, allowStale, r, outcome)];
      events := w + 1;
    }

    /** A call of `lookupModelsSnapshot` up to its await; its id is the number of the event. */
    method LookupModelsSnapshot(key: Key, force: bool, allowStale: bool)
      requires Valid()
      modifies this
      ensures Valid() && View() == StartLookup(old(View()), key, force, allowStale)
    {
      LookupKeepsInv(View(), key, force, allowStale);
      var e := ModelsCacheEntry(key);
      if !force && entries[e].snapshot.Some? && entries[e].snapshot.value.fetchedAt + TtlMs > clock {
        Record(events, entries[e], allowStale, None, Some(Served(entries[e].snapshot.value)));
      } else {
        RefreshModelsSnapshot(e, allowStale);
      }
    }

    /** The waiter loop of `settleModelsRefresh`. */
    method AnswerAll(waiters: set<nat>, outcome: Outcome)
      modifies this`lookups, this`settlements
      ensures lookups == Answer(old(lookups), waiters, outcome)
      ensures settlements == old(settlements) + multiset(waiters)
    {
      var left := waiters;
      ghost var done: set<nat> := {};
      assert Answer(lookups, done, outcome) == lookups;
      while left != {}
        invariant left !! done && left + done == waiters
        invariant lookups == Answer(old(lookups), done, outcome) && settlements == old(settlements) + multiset(done)
        decreases |left|
      {
        var w :| w in left;
        AnswerWaiter(w, outcome, old(lookups), old(settlements), done);
        left, done := left - {w}, done + {w};
      }
      assert done == waiters;
    }

    method AnswerWaiter(w: nat, outcome: Outcome, ghost before: map<nat, Lookup>, ghost settled: multiset<nat>, ghost done: set<nat>)
      requires w !in done && lookups == Answer(before, done, outcome) && settlements == settled + multiset(done)
      modifies this`lookups, this`settlements
      ensures lookups == Answer(before, done + {w}, outcome) && settlements == settled + multiset(done + {w})
    {
      AnswerOneMore(before, done, w, outcome);
      if w in lookups { lookups := lookups[w := lookups[w].(outcome := Some(outcome))]; }
      settlements := settlements + multiset{w};
    }

    /** Detaches the refresh from its entry, and the entry from the cache if it was retired. */
    method DetachRefresh(r: nat, aborted: bool, fetching: bool)
      requires r in refreshes
      modifies this`entries, this`mapped, this`refreshes
      ensures var s := old(View());
        && entries == Detach(s, s.refreshes[r].entry, r) && mapped == DropRetired(s.mapped, entries, s.refreshes[r].entry)
        && refreshes == s.refreshes[r := s.refreshes[r].(armed := false, aborted := aborted, fetching := fetching, waiters := {})]
    {
      var e := refreshes[r].entry;
      if e in entries && entries[e].refresh == Some(r) { entries := entries[e := entries[e].(refresh := None)]; }
      if e in entries && entries[e].retired && entries[e].refresh.None? && entries[e].key in mapped && mapped[entries[e].key] == e {
        mapped := mapped - {entries[e].key};
      }
      refreshes := refreshes[r := refreshes[r].(armed := false, aborted := aborted, fetching := fetching, waiters := {})];
    }

    method SettleModelsRefresh(r: nat, outcome: Outcome, aborted: bool, fetching: bool)
      requires r in refreshes
      modifies this`entries, this`mapped, this`refreshes, this`lookups, this`settlements
      ensures View() == Settle(old(View()), r, outcome, aborted, fetching)
    {
      var waiters := refreshes[r].waiters;
      DetachRefresh(r, aborted, fetching);
      AnswerAll(waiters, outcome);
    }

    method OnTimeout(r: nat)
      requires Valid() && Enabled(View(), DoTimeout(r))
      modifies this
      ensures Valid() && View() == TimedOut(old(View()), r)
    {
      StepKeepsInv(View(), DoTimeout(r));
      SettleModelsRefresh(r, Rejected(HttpStatus(504)), true, refreshes[r].fetching);
    }

    method OnFetched(r: nat, models: seq<string>, collides: bool)
      requires Valid() && Enabled(View(), DoFetched(r, models, collides))
      modifies this
      ensures Valid() && View() == FetchSucceeded(old(View()), r, models, collides)
    {
      StepKeepsInv(View(), DoFetched(r, models, collides));
      if refreshes[r].aborted { SettleModelsRefresh(r, Rejected(AbortError), true, false); }
      else if collides { SettleModelsRefresh(r, Rejected(Collision), false, false); }
      else {
        var snapshot := Snapshot(models, r, clock);
        var e := refreshes[r].entry;
        if e in entries && !entries[e].retired { entries := entries[e := entries[e].(snapshot := Some(snapshot))]; }
        SettleModelsRefresh(r, Resolved(snapshot), false, false);
      }
    }

    method OnFetchFailed(r: nat, failure: Failure)
      requires Valid() && Enabled(View(), DoFetchFailed(r, failure))
      modifies this
      ensures Valid() && View() == FetchFailed(old(View()), r, failure)
    {
      StepKeepsInv(View(), DoFetchFailed(r, failure));
      SettleModelsRefresh(r, Rejected(failure), refreshes[r].aborted, false);
    }

    /** The abort listener of a waiting lookup. */
    method OnAbort(w: nat)
      requires Valid() && Waits(View(), w)
      modifies this
      ensures Valid() && View() == AbortWaiter(old(View()), w, old(lookups[w].refresh.value))
    {
      ghost var s := View();
      AbortKeepsInv(s, w);
      var r := lookups[w].refresh.value;
      var left := refreshes[r].waiters - {w};
      AnswerOne(w);
      refreshes := refreshes[r := refreshes[r].(waiters := left)];
      if left == {} { DetachRefresh(r, true, refreshes[r].fetching); }
      assert refreshes == AbortWaiter(s, w, r).refreshes;
    }

    method AnswerOne(w: nat)
      modifies this`lookups, this`settlements
      ensures lookups == Answer(old(lookups), {w}, Rejected(AbortError)) && settlements == old(settlements) + multiset{w}
    {
      AnswerAll({w}, Rejected(AbortError));
      assert multiset({w}) == multiset{w};
    }

    method ClearModelsCache(identity: Identity)
      requires Valid()
      modifies this
      ensures Valid() && View() == Clear(old(View()), identity)
    {
      ClearKeepsInv(View(), identity);
      DeleteKeys(identity);
      cleared, events := cleared[identity := events], events + 1;
    }

    method DeleteKeys(identity: Identity)
      modifies this`mapped
      ensures mapped == map k | k in old(mapped) && k.identity != identity :: old(mapped)[k]
    {
      var left := mapped.Keys;
      while left != {}
        invariant left <= old(mapped).Keys
        invariant mapped == map k | k in old(mapped) && (k in left || k.identity != identity) :: old(mapped)[k]
        decreases |left|
      {
        var k :| k in left;
        left := left - {k};
        if k.identity == identity { mapped := mapped - {k}; }
      }
    }
  }
}
