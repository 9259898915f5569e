/**
 * Retention of request statistics: every insert is followed by a DELETE that keeps the newest rows of that account, and a
 * window-function DELETE does the same for all accounts at start. On MySQL the statements of several replicas interleave,
 * and a crash may drop the DELETE that should have followed an insert.
 */
module StatsRetention {
  import opened Common

  /** Rows are ordered by time and then by id; ids are unique, so the order is total. */
  datatype Row = Row(identity: Identity, requestedAt: nat, id: nat)

  predicate Newer(a: Row, b: Row) {
    a.requestedAt > b.requestedAt || (a.requestedAt == b.requestedAt && a.id > b.id)
  }

  predicate UniqueIds(rows: set<Row>) {
    forall a, b | a in rows && b in rows && a.id == b.id :: a == b
  }

  function Of(rows: set<Row>, identity: Identity): set<Row> {
    set r | r in rows && r.identity == identity
  }

  /** The rows of the same account that are newer than `r`. */
  function Ahead(rows: set<Row>, r: Row): set<Row> {
    set q | q in rows && q.identity == r.identity && Newer(q, r)
  }

  /** The reference: the rows of the account with fewer than `limit` newer ones. */
  function Top(rows: set<Row>, identity: Identity, limit: nat): set<Row> {
    set r | r in rows && r.identity == identity && |Ahead(rows, r)| < limit
  }

  // ---------------------------------------------------------------- the statements

  predicate IsNewest(rows: set<Row>, r: Row) {
    r in rows && forall q | q in rows && q != r :: Newer(r, q)
  }

  lemma {:induction false} NewestExists(rows: set<Row>) returns (r: Row)
    requires rows != {} && UniqueIds(rows)
    ensures IsNewest(rows, r)
    decreases |rows|
  {
    var a :| a in rows;
    if rows == {a} {
      r := a;
    } else {
      var others := rows - {a};
      assert others != {};
      var b := NewestExists(others);
      r := if Newer(a, b) then a else b;
      assert a.id != b.id;
      forall q | q in rows && q != r ensures Newer(r, q) {
        if q != a && q != b { assert q in others && Newer(b, q); }
      }
    }
  }

  /** `SELECT ... ORDER BY requested_at DESC, id DESC`. */
  ghost function Listing(rows: set<Row>): (s: seq<Row>)
    requires UniqueIds(rows)
    ensures |s| == |rows| && (forall r :: r in s <==> r in rows)
    ensures Sorted(s)
    decreases |rows|
  {
    if rows == {} then []
    else
      assert exists r :: IsNewest(rows, r) by { var r := NewestExists(rows); }
      var r :| IsNewest(rows, r);
      var rest := Listing(rows - {r});
      NewestInFront(rows, r, rest);
      [r] + rest
  }

  predicate Lists(s: seq<Row>, rows: set<Row>) {
    |s| == |rows| && (forall r | r in s :: r in rows) && (forall r | r in rows :: r in s)
  }

  lemma NewestInFront(rows: set<Row>, r: Row, rest: seq<Row>)
    requires IsNewest(rows, r) && Lists(rest, rows - {r}) && Sorted(rest)
    ensures Lists([r] + rest, rows) && Sorted([r] + rest)
  {
    var all := [r] + rest;
    forall i, j | 0 <= i < j < |all| ensures Newer(all[i], all[j]) {
      if i > 0 { assert all[i] == rest[i - 1] && all[j] == rest[j - 1]; } else { assert all[j] == rest[j - 1] && rest[j - 1] in rest; }
    }
    forall q | q in rows ensures q in all { if q != r { assert q in rest; } else { assert all[0] == q; } }
  }

  function Prefix(s: seq<Row>, limit: nat): seq<Row> {
    if |s| <= limit then s else s[..limit]
  }

  /** `DELETE ... WHERE identity = ? AND id NOT IN (SELECT id ... ORDER BY ... LIMIT ?)`. */
  ghost function Prune(rows: set<Row>, identity: Identity, limit: nat): set<Row>
    requires UniqueIds(rows)
  {
    set r | r in rows && (r.identity != identity || r in Prefix(Listing(Of(rows, identity)), limit))
  }

  function Position(s: seq<Row>, r: Row): nat {
    if s == [] || s[0] == r then 0 else 1 + Position(s[1..], r)
  }

  /** `ROW_NUMBER() OVER (PARTITION BY identity ORDER BY requested_at DESC, id DESC)`. */
  ghost function RowNumber(rows: set<Row>, r: Row): nat
    requires UniqueIds(rows)
  {
    Position(Listing(Of(rows, r.identity)), r) + 1
  }

  /** The window-function DELETE over all accounts. */
  ghost function PruneAll(rows: set<Row>, limit: nat): set<Row>
    requires UniqueIds(rows)
  {
    set r | r in rows && RowNumber(rows, r) <= limit
  }

  // ---------------------------------------------------------------- both statements keep the reference rows

  predicate Sorted(s: seq<Row>) {
    forall i, j | 0 <= i < j < |s| :: Newer(s[i], s[j])
  }

  /** In a sorted listing the rows ahead of the one at `i` are those listed before it. */
  lemma AheadIsListedBefore(s: seq<Row>, rows: set<Row>, identity: Identity, i: nat, q: Row)
    requires Sorted(s) && (forall r :: r in s <==> r in Of(rows, identity)) && i < |s|
    ensures q in Ahead(rows, s[i]) <==> q in s[..i]
  {
    assert s[i] in Of(rows, identity);
    if q in s[..i] {
      var j :| 0 <= j < i && s[j] == q;
      assert s[j] in Of(rows, identity) && Newer(s[j], s[i]);
    } else if q in Of(rows, identity) {
      var j :| 0 <= j < |s| && s[j] == q;
      assert j >= i;
    }
  }

  lemma ListingRank(rows: set<Row>, identity: Identity, i: nat)
    requires UniqueIds(rows) && i < |Listing(Of(rows, identity))|
    ensures |Ahead(rows, Listing(Of(rows, identity))[i])| == i
  {
    var s := Listing(Of(rows, identity));
    forall q ensures q in Ahead(rows, s[i]) <==> q in s[..i] { AheadIsListedBefore(s, rows, identity, i, q); }
    DistinctSize(s[..i], Ahead(rows, s[i]));
  }

  lemma {:induction false} DistinctSize(s: seq<Row>, rows: set<Row>)
    requires Sorted(s) && forall q :: q in rows <==> q in s
    ensures |rows| == |s|
  {
    if s != [] {
      var last := s[|s| - 1];
      var front := s[..|s| - 1];
      forall q ensures q in rows - {last} <==> q in front {
        if q in front { var j :| 0 <= j < |front| && front[j] == q; assert Newer(s[j], last); }
      }
      DistinctSize(front, rows - {last});
      assert last in rows;
    } else {
      assert rows == {};
    }
  }

  lemma PrefixIsTop(rows: set<Row>, identity: Identity, limit: nat, r: Row)
    requires UniqueIds(rows) && r in rows && r.identity == identity
    ensures r in Prefix(Listing(Of(rows, identity)), limit) <==> |Ahead(rows, r)| < limit
  {
    var s := Listing(Of(rows, identity));
    assert r in Of(rows, identity) && r in s;
    var i :| 0 <= i < |s| && s[i] == r;
    ListingRank(rows, identity, i);
    if i < limit {
      assert Prefix(s, limit)[i] == r;
    }
  }

  /** The ordered LIMIT keeps exactly the rows with fewer than `limit` newer ones. */
  lemma PruneKeepsTop(rows: set<Row>, identity: Identity, limit: nat)
    requires UniqueIds(rows)
    ensures Of(Prune(rows, identity, limit), identity) == Top(rows, identity, limit)
    ensures forall other | other != identity :: Of(Prune(rows, identity, limit), other) == Of(rows, other)
  {
    forall r | r in rows && r.identity == identity
      ensures r in Prune(rows, identity, limit) <==> r in Top(rows, identity, limit)
    {
      PrefixIsTop(rows, identity, limit, r);
    }
  }

  lemma {:induction false} PositionIsIndex(s: seq<Row>, r: Row)
    requires r in s
    ensures Position(s, r) < |s| && s[Position(s, r)] == r
  {
    if s[0] != r { PositionIsIndex(s[1..], r); }
  }

  /** A row's number in its partition is one more than the rows of the account that are newer. */
  lemma RowNumberIsRank(rows: set<Row>, r: Row)
    requires UniqueIds(rows) && r in rows
    ensures RowNumber(rows, r) == |Ahead(rows, r)| + 1
  {
    assert r in Of(rows, r.identity);
    PositionIsIndex(Listing(Of(rows, r.identity)), r);
    ListingRank(rows, r.identity, Position(Listing(Of(rows, r.identity)), r));
  }

  /** The window function over all accounts keeps of each account exactly what its own ordered LIMIT keeps. */
  lemma PruneAllKeepsTop(rows: set<Row>, identity: Identity, limit: nat)
    requires UniqueIds(rows)
    ensures Of(PruneAll(rows, limit), identity) == Top(rows, identity, limit) == Of(Prune(rows, identity, limit), identity)
  {
    PruneKeepsTop(rows, identity, limit);
    forall r | r in rows && r.identity == identity ensures r in PruneAll(rows, limit) <==> r in Top(rows, identity, limit) {
      RowNumberIsRank(rows, r);
    }
  }

  /** The reference is as large as the limit allows. */
  lemma TopSize(rows: set<Row>, identity: Identity, limit: nat)
    requires UniqueIds(rows)
    ensures |Top(rows, identity, limit)| == if |Of(rows, identity)| <= limit then |Of(rows, identity)| else limit
  {
    var s := Listing(Of(rows, identity));
    PruneKeepsTop(rows, identity, limit);
    var kept := Prefix(s, limit);
    forall q ensures q in Top(rows, identity, limit) <==> q in kept {
      if q in kept {
        var j :| 0 <= j < |kept| && kept[j] == q;
        assert q == s[j] && q in s && q in Of(rows, identity);
        assert q in Prune(rows, identity, limit) && q in Of(Prune(rows, identity, limit), identity);
      }
      if q in Top(rows, identity, limit) { assert q in Of(Prune(rows, identity, limit), identity); }
    }
    DistinctSize(kept, Top(rows, identity, limit));
  }

  // ---------------------------------------------------------------- what pruning a pruned table loses

  lemma FewerAhead(rows: set<Row>, all: set<Row>, r: Row)
    requires rows <= all
    ensures |Ahead(rows, r)| <= |Ahead(all, r)|
  {
    Fewer(Ahead(rows, r), Ahead(all, r));
  }

  lemma {:induction false} Fewer(a: set<Row>, b: set<Row>)
    requires a <= b
    ensures |a| <= |b|
    decreases a
  {
    if a != {} {
      var r :| r in a;
      Fewer(a - {r}, b - {r});
    }
  }

  /** A table that holds the newest rows ever recorded ranks them as the full history does. */
  lemma TopSurvives(rows: set<Row>, all: set<Row>, identity: Identity, limit: nat)
    requires rows <= all && UniqueIds(all) && Top(all, identity, limit) <= rows
    ensures Top(rows, identity, limit) == Top(all, identity, limit)
  {
    forall r | r in Top(all, identity, limit) ensures r in Top(rows, identity, limit) { FewerAhead(rows, all, r); }
    forall r | r in Top(rows, identity, limit) ensures r in Top(all, identity, limit) {
      if |Ahead(all, r)| >= limit { MissingIsTooOld(rows, all, r, limit); }
    }
  }

  lemma MissingIsTooOld(rows: set<Row>, all: set<Row>, r: Row, limit: nat)
    requires rows <= all && UniqueIds(all) && Top(all, r.identity, limit) <= rows
    requires |Ahead(all, r)| >= limit
    ensures |Ahead(rows, r)| >= limit
  {
    var missing := Ahead(all, r) - rows;
    if missing == {} {
      forall q | q in Ahead(all, r) ensures q in Ahead(rows, r) { assert q !in missing; }
      Fewer(Ahead(all, r), Ahead(rows, r));
    } else {
      var q := NewestExists(missing);
      assert q !in Top(all, r.identity, limit);
      forall p | p in Ahead(all, q) ensures p in Ahead(rows, r) {
        assert p in missing ==> Newer(q, p);
      }
      Fewer(Ahead(all, q), Ahead(rows, r));
    }
  }

  // ---------------------------------------------------------------- any interleaving of inserts and deletes

  /** `recorded` is every row ever inserted; `unpruned` the accounts with an insert that no DELETE has followed yet. */
  datatype Stats = Stats(rows: set<Row>, recorded: set<Row>, unpruned: set<Identity>)

  datatype Step = DoInsert(row: Row) | DoPrune(identity: Identity) | DoPruneAll

  ghost predicate Enabled(s: Stats, step: Step) {
    && UniqueIds(s.rows)
    && (step.DoInsert? ==> forall r | r in s.recorded :: r.id != step.row.id)
  }

  ghost function Apply(s: Stats, step: Step, limit: nat): Stats
    requires Enabled(s, step)
  {
    match step
    case DoInsert(row) => Stats(s.rows + {row}, s.recorded + {row}, s.unpruned + {row.identity})
    case DoPrune(identity) => s.(rows := Prune(s.rows, identity, limit), unpruned := s.unpruned - {identity})
    case DoPruneAll => s.(rows := PruneAll(s.rows, limit), unpruned := {})
  }

  ghost predicate IsRun(trace: seq<Stats>, steps: seq<Step>, limit: nat) {
    && |trace| == |steps| + 1 && trace[0] == Stats({}, {}, {})
    && forall i | 0 <= i < |steps| :: Enabled(trace[i], steps[i]) && trace[i + 1] == Apply(trace[i], steps[i], limit)
  }

  predicate AccountOk(s: Stats, identity: Identity, limit: nat) {
    && Top(s.recorded, identity, limit) <= s.rows
    && (identity !in s.unpruned ==> Of(s.rows, identity) == Top(s.recorded, identity, limit))
  }

  ghost predicate Inv(s: Stats, limit: nat) {
    s.rows <= s.recorded && UniqueIds(s.recorded) && forall identity :: AccountOk(s, identity, limit)
  }

  lemma InsertKeepsAccount(s: Stats, row: Row, identity: Identity, limit: nat)
    requires Inv(s, limit) && Enabled(s, DoInsert(row))
    ensures AccountOk(Apply(s, DoInsert(row), limit), identity, limit)
  {
    var all := s.recorded + {row};
    assert AccountOk(s, identity, limit);
    forall r | r in Top(all, identity, limit) ensures r in s.rows + {row} {
      FewerAhead(s.recorded, all, r);
      assert r != row ==> r in Top(s.recorded, identity, limit);
    }
    if identity != row.identity {
      forall r: Row | r.identity == identity ensures Ahead(all, r) == Ahead(s.recorded, r) {}
      assert Top(all, identity, limit) == Top(s.recorded, identity, limit);
      assert Of(s.rows + {row}, identity) == Of(s.rows, identity);
    }
  }

  lemma PruneKeepsAccount(s: Stats, pruned: Identity, identity: Identity, limit: nat)
    requires Inv(s, limit) && Enabled(s, DoPrune(pruned))
    ensures AccountOk(Apply(s, DoPrune(pruned), limit), identity, limit)
  {
    assert AccountOk(s, identity, limit);
    PruneKeepsTop(s.rows, pruned, limit);
    var t := Apply(s, DoPrune(pruned), limit);
    if identity == pruned { TopSurvives(s.rows, s.recorded, identity, limit); }
    forall r | r in Top(s.recorded, identity, limit) ensures r in t.rows {
      assert r in (if identity == pruned then Top(s.rows, identity, limit) else Of(s.rows, identity));
      assert r in Of(t.rows, identity);
    }
  }

  lemma PruneAllKeepsAccount(s: Stats, identity: Identity, limit: nat)
    requires Inv(s, limit) && Enabled(s, DoPruneAll)
    ensures AccountOk(Apply(s, DoPruneAll, limit), identity, limit)
  {
    assert AccountOk(s, identity, limit);
    PruneAllKeepsTop(s.rows, identity, limit);
    TopSurvives(s.rows, s.recorded, identity, limit);
    var t := Apply(s, DoPruneAll, limit);
    forall r | r in Top(s.recorded, identity, limit) ensures r in t.rows { assert r in Of(t.rows, identity); }
  }

  lemma StepKeepsInv(s: Stats, step: Step, limit: nat)
    requires Inv(s, limit) && Enabled(s, step)
    ensures Inv(Apply(s, step, limit), limit)
  {
    forall identity ensures AccountOk(Apply(s, step, limit), identity, limit) {
      match step
      case DoInsert(row) => InsertKeepsAccount(s, row, identity, limit);
      case DoPrune(pruned) => PruneKeepsAccount(s, pruned, identity, limit);
      case DoPruneAll => PruneAllKeepsAccount(s, identity, limit);
    }
  }

  lemma {:induction false} RunKeepsInv(trace: seq<Stats>, steps: seq<Step>, limit: nat)
    requires IsRun(trace, steps, limit)
    ensures Inv(trace[|steps|], limit)
    decreases |steps|
  {
    if |steps| > 0 {
      var last := |steps| - 1;
      RunKeepsInv(trace[..|steps|], steps[..last], limit);
      StepKeepsInv(trace[last], steps[last], limit);
    }
  }

  /**
   * The newest `limit` rows ever recorded for an account are always in the table, and once a DELETE has followed the
   * account's last insert they are all that is left of it.
   */
  lemma NewestAreKept(trace: seq<Stats>, steps: seq<Step>, limit: nat, identity: Identity)
    requires IsRun(trace, steps, limit)
    ensures var s := trace[|steps|];
      && Top(s.recorded, identity, limit) <= Of(s.rows, identity) <= Of(s.recorded, identity)
      && (identity !in s.unpruned ==>
            && Of(s.rows, identity) == Top(s.recorded, identity, limit)
            && |Of(s.rows, identity)| == if |Of(s.recorded, identity)| <= limit then |Of(s.recorded, identity)| else limit)
  {
    RunKeepsInv(trace, steps, limit);
    var s := trace[|steps|];
    assert AccountOk(s, identity, limit);
    TopSize(s.recorded, identity, limit);
  }

  /** A row recorded later than every other row of its account survives every DELETE, as long as any row is to be kept. */
  lemma LatestRowSurvives(trace: seq<Stats>, steps: seq<Step>, limit: nat, r: Row)
    requires IsRun(trace, steps, limit) && limit > 0 && r in trace[|steps|].recorded
    requires forall q | q in trace[|steps|].recorded && q.identity == r.identity && q != r :: q.requestedAt < r.requestedAt
    ensures r in trace[|steps|].rows
  {
    RunKeepsInv(trace, steps, limit);
    assert Ahead(trace[|steps|].recorded, r) == {};
    assert AccountOk(trace[|steps|], r.identity, limit);
    assert r in Top(trace[|steps|].recorded, r.identity, limit);
  }

  /** After the DELETE of an account, no row that is gone was recorded later than one that is left, nor at once with a higher id. */
  lemma DroppedRowsAreOlder(trace: seq<Stats>, steps: seq<Step>, limit: nat, gone: Row, left: Row)
    requires IsRun(trace, steps, limit) && gone.identity == left.identity && gone.identity !in trace[|steps|].unpruned
    requires gone in trace[|steps|].recorded && gone !in trace[|steps|].rows && left in trace[|steps|].rows
    ensures gone.requestedAt < left.requestedAt || (gone.requestedAt == left.requestedAt && gone.id < left.id)
  {
    RunKeepsInv(trace, steps, limit);
    var s := trace[|steps|];
    assert AccountOk(s, gone.identity, limit) && left in Of(s.rows, left.identity) && gone !in Of(s.rows, gone.identity);
    if Newer(gone, left) { NewerIsKept(s.recorded, gone, left, limit); }
  }

  lemma NewerIsKept(rows: set<Row>, q: Row, r: Row, limit: nat)
    requires q in rows && q.identity == r.identity && Newer(q, r) && r in Top(rows, r.identity, limit)
    ensures q in Top(rows, q.identity, limit)
  {
    forall p | p in Ahead(rows, q) ensures p in Ahead(rows, r) {}
    Fewer(Ahead(rows, q), Ahead(rows, r));
  }

  /** Then the global DELETE has nothing to do. */
  lemma GlobalPruneIsNoOp(trace: seq<Stats>, steps: seq<Step>, limit: nat)
    requires IsRun(trace, steps, limit) && trace[|steps|].unpruned == {}
    ensures UniqueIds(trace[|steps|].rows) && PruneAll(trace[|steps|].rows, limit) == trace[|steps|].rows
  {
    RunKeepsInv(trace, steps, limit);
    var s := trace[|steps|];
    forall r | r in s.rows ensures r in PruneAll(s.rows, limit) {
      assert AccountOk(s, r.identity, limit) && r in Of(s.rows, r.identity);
      TopSurvives(s.rows, s.recorded, r.identity, limit);
      RowNumberIsRank(s.rows, r);
    }
  }

  // ---------------------------------------------------------------- the table

  class StatsTable {
    var rows: set<Row>
    const limit: nat

    constructor (limit: nat)
      ensures rows == {} && this.limit == limit
    {
      rows, this.limit := {}, limit;
    }

    method PruneStats(identity: Identity)
      requires UniqueIds(rows)
      modifies this
      ensures UniqueIds(rows)
      ensures Of(rows, identity) == Top(old(rows), identity, limit)
      ensures forall r: Row | r.identity != identity :: r in rows <==> r in old(rows)
    {
      var kept := SelectNewest(Of(rows, identity), limit);
      KeptIsTop(rows, identity, kept, limit);
      rows := set r | r in rows && (r.identity != identity || r in kept);
      assert Of(rows, identity) == kept;
    }

    method RecordRequestStat(row: Row)
      requires UniqueIds(rows + {row})
      modifies this
      ensures Of(rows, row.identity) == Top(old(rows) + {row}, row.identity, limit)
      ensures forall r: Row | r.identity != row.identity :: r in rows <==> r in old(rows)
    {
      rows := rows + {row};
      PruneStats(row.identity);
    }
  }

  /** Nothing that was left out is newer than something that was kept, and nothing is left out needlessly. */
  ghost predicate Selected(rows: set<Row>, kept: set<Row>, limit: nat) {
    && kept <= rows && |kept| <= limit && (kept == rows || |kept| == limit)
    && forall q, r | q in kept && r in rows - kept :: Newer(q, r)
  }

  method SelectNewest(rows: set<Row>, limit: nat) returns (kept: set<Row>)
    requires UniqueIds(rows)
    ensures Selected(rows, kept, limit)
  {
    kept := {};
    var left := rows;
    while left != {} && |kept| < limit
      invariant kept <= rows && left == rows - kept && |kept| <= limit
      invariant forall q, r | q in kept && r in left :: Newer(q, r)
      decreases |left|
    {
      var r := TakeNewest(left);
      left, kept := left - {r}, kept + {r};
    }
  }

  method TakeNewest(rows: set<Row>) returns (r: Row)
    requires rows != {} && UniqueIds(rows)
    ensures IsNewest(rows, r)
  {
    r :| r in rows;
    var left := rows - {r};
    while left != {}
      invariant left <= rows && r in rows && r !in left
      invariant forall q | q in rows && q !in left && q != r :: Newer(r, q)
      decreases |left|
    {
      var q :| q in left;
      left := left - {q};
      assert q.id != r.id;
      if Newer(q, r) { r := q; }
    }
  }

  lemma KeptIsTop(rows: set<Row>, identity: Identity, kept: set<Row>, limit: nat)
    requires UniqueIds(rows) && Selected(Of(rows, identity), kept, limit)
    ensures kept == Top(rows, identity, limit)
  {
    forall r | r in Of(rows, identity) ensures r in kept <==> r in Top(rows, identity, limit) {
      if r in kept { KeptIsAhead(rows, identity, kept, limit, r); } else { LeftOutIsBehind(rows, identity, kept, limit, r); }
    }
    forall r | r in Top(rows, identity, limit) ensures r in Of(rows, identity) {}
  }

  lemma KeptIsAhead(rows: set<Row>, identity: Identity, kept: set<Row>, limit: nat, r: Row)
    requires UniqueIds(rows) && Selected(Of(rows, identity), kept, limit) && r in kept
    ensures |Ahead(rows, r)| < limit
  {
    assert r in Of(rows, identity);
    forall q | q in Ahead(rows, r) ensures q in kept - {r} {
      assert q in Of(rows, identity);
      assert q in Of(rows, identity) - kept ==> Newer(r, q);
    }
    Fewer(Ahead(rows, r), kept - {r});
  }

  lemma LeftOutIsBehind(rows: set<Row>, identity: Identity, kept: set<Row>, limit: nat, r: Row)
    requires Selected(Of(rows, identity), kept, limit) && r in Of(rows, identity) && r !in kept
    ensures |Ahead(rows, r)| >= limit
  {
    forall q | q in kept ensures q in Ahead(rows, r) { assert q in Of(rows, identity); }
    Fewer(kept, Ahead(rows, r));
  }
}
