/**
 * The rotating log files: file 0 is written, higher numbers are older, and the oldest is dropped. Appends are serialized,
 * so a directory is the result of a sequence of appends.
 */
module DiagnosticLog {
  import opened Common
  import opened DiagnosticFormat

  /** The configuration accepts only positive numbers. */
  datatype Limits = Limits(maxFileBytes: nat, maxFiles: nat)

  type Directory = map<nat, string>

  // ---------------------------------------------------------------- files

  function CharBytes(c: char): nat {
    if c < '\U{80}' then 1 else if c < '\U{800}' then 2 else if c < '\U{10000}' then 3 else 4
  }

  function Bytes(s: string): nat {
    if s == [] then 0 else Bytes(s[..|s| - 1]) + CharBytes(s[|s| - 1])
  }

  function Active(files: Directory): string {
    if 0 in files then files[0] else []
  }

  predicate NeedsNewline(active: string) {
    active != [] && active[|active| - 1] != '\n'
  }

  function OneUp(files: Directory, maxFiles: nat): set<nat> {
    set i | i in files && i + 1 < maxFiles :: i + 1
  }

  /** Every file moves up by one; the last place is taken by the one before it. */
  function Rotated(files: Directory, limits: Limits): Directory {
    map i | i in OneUp(files, limits.maxFiles) :: files[i - 1]
  }

  function Appended(files: Directory, block: string, limits: Limits): Directory {
    var active := Active(files);
    var prefix := if NeedsNewline(active) then "\n" else "";
    if Bytes(active) > 0 && Bytes(active) + Bytes(prefix) + Bytes(block) > limits.maxFileBytes
    then Rotated(files, limits)[0 := block]
    else files[0 := active + prefix + block]
  }

  /** The text of one record: complete lines. */
  datatype Block = Block(text: string)

  predicate IsBlock(b: Block) {
    b.text != [] && b.text[|b.text| - 1] == '\n'
  }

  predicate AreBlocks(history: seq<Block>) {
    forall i | 0 <= i < |history| :: IsBlock(history[i])
  }

  /** The directory after a history of appends to an empty one. */
  function Written(history: seq<Block>, limits: Limits): Directory {
    if history == [] then map[] else Appended(Written(history[..|history| - 1], limits), history[|history| - 1].text, limits)
  }

  function Backwards(s: seq<Parsed>): seq<Parsed> {
    if s == [] then [] else [s[|s| - 1]] + Backwards(s[..|s| - 1])
  }

  type Parser = string -> seq<Parsed>

  function ParserOf(m: Markers, summaryId: SummaryId): Parser {
    (s: string) => Parse(m, s, summaryId)
  }

  /** Newest record first, file by file. */
  function Visited(parse: Parser, files: Directory, from: nat, maxFiles: nat): seq<Parsed>
    decreases maxFiles - from
  {
    if from >= maxFiles then []
    else (if from in files then Backwards(parse(files[from])) else []) + Visited(parse, files, from + 1, maxFiles)
  }

  // ---------------------------------------------------------------- the same, as groups of records

  /** The records of each file, newest file first. */
  type Groups = seq<seq<Block>>

  function Joined(group: seq<Block>): string {
    if group == [] then [] else Joined(group[..|group| - 1]) + group[|group| - 1].text
  }

  function Truncated(groups: Groups, maxFiles: nat): Groups {
    if |groups| <= maxFiles then groups else groups[..maxFiles]
  }

  predicate Full(group: seq<Block>, b: Block, limits: Limits) {
    Bytes(Joined(group)) + Bytes(b.text) > limits.maxFileBytes
  }

  function GroupsAfter(groups: Groups, b: Block, limits: Limits): Groups {
    if groups == [] then [[b]]
    else if Full(groups[0], b, limits) then Truncated([[b]] + groups, limits.maxFiles)
    else [groups[0] + [b]] + groups[1..]
  }

  function Grouped(history: seq<Block>, limits: Limits): Groups {
    if history == [] then [] else GroupsAfter(Grouped(history[..|history| - 1], limits), history[|history| - 1], limits)
  }

  function FilesOf(groups: Groups): Directory {
    map i | 0 <= i < |groups| :: Joined(groups[i])
  }

  /** The records of all groups, oldest first. */
  function Kept(groups: Groups): seq<Block> {
    if groups == [] then [] else Kept(groups[1..]) + groups[0]
  }

  predicate GroupOk(group: seq<Block>, limits: Limits) {
    group != [] && AreBlocks(group) && (|group| == 1 || Bytes(Joined(group)) <= limits.maxFileBytes)
  }

  predicate GroupsOk(groups: Groups, limits: Limits) {
    |groups| <= limits.maxFiles && forall i | 0 <= i < |groups| :: GroupOk(groups[i], limits)
  }

  predicate IsSuffix(kept: seq<Block>, history: seq<Block>) {
    |kept| <= |history| && history[|history| - |kept|..] == kept
  }

  // ---------------------------------------------------------------- sizes and texts

  lemma {:induction false} BytesAdd(a: string, b: string)
    ensures Bytes(a + b) == Bytes(a) + Bytes(b)
    decreases |b|
  {
    if b == [] {
      assert a + b == a;
    } else {
      BytesAdd(a, b[..|b| - 1]);
      assert (a + b)[..|a + b| - 1] == a + b[..|b| - 1];
    }
  }

  /** The size counts one byte for each plain character, and up to four for any other. */
  lemma {:induction false} BytesBounds(s: string)
    ensures |s| <= Bytes(s) <= 4 * |s|
    ensures Bytes(s) == |s| <==> forall k | 0 <= k < |s| :: s[k] < '\U{80}'
  {
    if s != [] {
      var front := s[..|s| - 1];
      BytesBounds(front);
      assert forall k | 0 <= k < |front| :: front[k] == s[k];
    }
  }

  lemma JoinedSnoc(group: seq<Block>, b: Block)
    ensures Joined(group + [b]) == Joined(group) + b.text
  {
    assert (group + [b])[..|group|] == group;
  }

  lemma FileEndsLine(group: seq<Block>)
    requires group != [] && AreBlocks(group)
    ensures Joined(group) != [] && Bytes(Joined(group)) > 0 && !NeedsNewline(Joined(group))
  {
    assert IsBlock(group[|group| - 1]);
  }

  // ---------------------------------------------------------------- the files hold the groups

  lemma AppendRefines(groups: Groups, b: Block, limits: Limits)
    requires GroupsOk(groups, limits) && limits.maxFiles >= 1
    ensures Appended(FilesOf(groups), b.text, limits) == FilesOf(GroupsAfter(groups, b, limits))
  {
    var files := FilesOf(groups);
    if groups == [] {
      assert Active(files) + "" + b.text == b.text && Joined([b]) == Joined([]) + b.text;
    } else {
      assert GroupOk(groups[0], limits);
      FileEndsLine(groups[0]);
      if Full(groups[0], b, limits) { RotationRefines(groups, b, limits); } else { AppendInPlace(groups, b, limits); }
    }
  }

  lemma AppendInPlace(groups: Groups, b: Block, limits: Limits)
    requires groups != []
    ensures FilesOf(groups)[0 := Joined(groups[0]) + "" + b.text] == FilesOf([groups[0] + [b]] + groups[1..])
  {
    JoinedSnoc(groups[0], b);
    assert Joined(groups[0]) + "" + b.text == Joined(groups[0]) + b.text;
  }

  lemma JoinedOne(b: Block)
    ensures Joined([b]) == b.text
  {
    assert [b][..0] == [] && Joined([]) + b.text == b.text;
  }

  lemma RotatedAt(groups: Groups, limits: Limits, i: nat)
    requires 1 <= limits.maxFiles && |groups| <= limits.maxFiles
    ensures i in Rotated(FilesOf(groups), limits) <==> 0 < i <= |groups| && i < limits.maxFiles
    ensures i in Rotated(FilesOf(groups), limits) ==> Rotated(FilesOf(groups), limits)[i] == Joined(groups[i - 1])
  {
    if 0 < i <= |groups| && i < limits.maxFiles { assert i - 1 in FilesOf(groups); }
  }

  lemma TruncatedAt(groups: Groups, b: Block, maxFiles: nat, i: nat)
    requires 1 <= maxFiles
    ensures var after := Truncated([[b]] + groups, maxFiles);
      && (i < |after| <==> i <= |groups| && i < maxFiles)
      && (i < |after| ==> after[i] == if i == 0 then [b] else groups[i - 1])
  {
  }

  predicate SameAt(a: Directory, b: Directory, i: nat) {
    if i in a then i in b && a[i] == b[i] else i !in b
  }

  lemma SameEverywhere(a: Directory, b: Directory)
    requires forall i: nat :: SameAt(a, b, i)
    ensures a == b
  {
    forall i: nat ensures i in a <==> i in b { assert SameAt(a, b, i); }
    forall i | i in a ensures a[i] == b[i] { assert SameAt(a, b, i); }
  }

  lemma RotationRefines(groups: Groups, b: Block, limits: Limits)
    requires limits.maxFiles >= 1 && |groups| <= limits.maxFiles
    ensures Rotated(FilesOf(groups), limits)[0 := b.text] == FilesOf(Truncated([[b]] + groups, limits.maxFiles))
  {
    var now, next := Rotated(FilesOf(groups), limits)[0 := b.text], FilesOf(Truncated([[b]] + groups, limits.maxFiles));
    JoinedOne(b);
    forall i: nat ensures SameAt(now, next, i) {
      RotatedAt(groups, limits, i);
      TruncatedAt(groups, b, limits.maxFiles, i);
    }
    SameEverywhere(now, next);
  }

  lemma {:induction false} WrittenIsGrouped(history: seq<Block>, limits: Limits)
    requires limits.maxFiles >= 1 && AreBlocks(history)
    ensures GroupsOk(Grouped(history, limits), limits)
    ensures Written(history, limits) == FilesOf(Grouped(history, limits))
  {
    if history != [] {
      var front, b := history[..|history| - 1], history[|history| - 1];
      WrittenIsGrouped(front, limits);
      AppendRefines(Grouped(front, limits), b, limits);
      AppendKeepsGroups(Grouped(front, limits), b, limits);
    }
  }

  lemma AppendKeepsGroups(groups: Groups, b: Block, limits: Limits)
    requires GroupsOk(groups, limits) && limits.maxFiles >= 1 && IsBlock(b)
    ensures GroupsOk(GroupsAfter(groups, b, limits), limits)
  {
    if groups != [] && !Full(groups[0], b, limits) {
      assert GroupOk(groups[0], limits);
      JoinedSnoc(groups[0], b);
      BytesAdd(Joined(groups[0]), b.text);
    }
  }

  // ---------------------------------------------------------------- the groups are the end of the history

  lemma {:induction false} KeptSplits(groups: Groups, k: nat)
    requires k <= |groups|
    ensures Kept(groups) == Kept(groups[k..]) + Kept(groups[..k])
  {
    if k == 0 {
      assert groups[0..] == groups && Kept(groups[..0]) == [];
    } else {
      KeptSplits(groups[1..], k - 1);
      assert groups[1..][k - 1..] == groups[k..] && groups[1..][..k - 1] == groups[..k][1..];
    }
  }

  lemma KeptTruncated(groups: Groups, b: Block, maxFiles: nat)
    requires maxFiles >= 1
    ensures var kept := Kept(Truncated([[b]] + groups, maxFiles));
      IsSuffix(kept, Kept(groups) + [b]) && kept != [] && kept[|kept| - 1] == b
  {
    var all := [[b]] + groups;
    var after := Truncated(all, maxFiles);
    assert all[1..] == groups && Kept(all) == Kept(groups) + [b];
    KeptSplits(all, |after|);
    assert all[..|after|] == after && after[0] == [b];
    assert Kept(after) == Kept(after[1..]) + [b];
  }

  lemma KeptAfter(groups: Groups, b: Block, limits: Limits)
    requires limits.maxFiles >= 1
    ensures var kept := Kept(GroupsAfter(groups, b, limits));
      IsSuffix(kept, Kept(groups) + [b]) && kept != [] && kept[|kept| - 1] == b
  {
    if groups == [] {
      assert [[b]][1..] == [] && Kept([[b]]) == Kept([]) + [b];
    } else if Full(groups[0], b, limits) {
      KeptTruncated(groups, b, limits.maxFiles);
    } else {
      KeptInPlace(groups, b);
    }
  }

  lemma KeptInPlace(groups: Groups, b: Block)
    requires groups != []
    ensures Kept([groups[0] + [b]] + groups[1..]) == Kept(groups) + [b]
  {
    var after := [groups[0] + [b]] + groups[1..];
    assert after[1..] == groups[1..] && after[0] == groups[0] + [b];
    assert Kept(groups[1..]) + (groups[0] + [b]) == Kept(groups[1..]) + groups[0] + [b];
  }

  predicate EndsAlike(kept: seq<Block>, history: seq<Block>) {
    IsSuffix(kept, history) && (history != [] ==> kept != [] && kept[|kept| - 1] == history[|history| - 1])
  }

  lemma EndsAlikeAfter(kept: seq<Block>, before: seq<Block>, front: seq<Block>, b: Block)
    requires IsSuffix(before, front) && IsSuffix(kept, before + [b]) && kept != [] && kept[|kept| - 1] == b
    ensures EndsAlike(kept, front + [b])
  {
    SuffixSnoc(before, front, b);
    SuffixOfSuffix(kept, before + [b], front + [b]);
  }

  lemma KeptStep(groups: Groups, next: Groups, front: seq<Block>, history: seq<Block>, b: Block, limits: Limits)
    requires limits.maxFiles >= 1 && EndsAlike(Kept(groups), front) && history == front + [b] && next == GroupsAfter(groups, b, limits)
    ensures EndsAlike(Kept(next), history)
  {
    KeptAfter(groups, b, limits);
    EndsAlikeAfter(Kept(next), Kept(groups), front, b);
  }

  lemma {:induction false} KeptIsSuffix(history: seq<Block>, limits: Limits)
    requires limits.maxFiles >= 1
    ensures EndsAlike(Kept(Grouped(history, limits)), history)
  {
    if history != [] {
      var front, b := history[..|history| - 1], history[|history| - 1];
      KeptIsSuffix(front, limits);
      KeptStep(Grouped(front, limits), Grouped(history, limits), front, history, b, limits);
    }
  }

  lemma SuffixSnoc(a: seq<Block>, c: seq<Block>, b: Block)
    requires IsSuffix(a, c)
    ensures IsSuffix(a + [b], c + [b])
  {
  }

  lemma SuffixOfSuffix(a: seq<Block>, b: seq<Block>, c: seq<Block>)
    requires IsSuffix(a, b) && IsSuffix(b, c)
    ensures IsSuffix(a, c)
  {
    assert c[|c| - |a|..] == c[|c| - |b|..][|b| - |a|..];
  }

  // ---------------------------------------------------------------- reading the directory

  /** The block is read as one record, whatever text follows it. */
  ghost predicate Readable(parse: Parser, b: Block, p: Parsed) {
    forall rest: string :: parse(b.text + rest) == [p] + parse(rest)
  }

  ghost predicate ReadableAt(parse: Parser, blocks: seq<Block>, parsed: seq<Parsed>, i: nat) {
    i < |blocks| && i < |parsed| ==> Readable(parse, blocks[i], parsed[i])
  }

  /** Block by block, `parsed` is what the reader makes of `blocks`. */
  ghost predicate AllReadable(parse: Parser, blocks: seq<Block>, parsed: seq<Parsed>) {
    |blocks| == |parsed| && forall i: nat :: ReadableAt(parse, blocks, parsed, i)
  }

  lemma ReadNext(parse: Parser, b: Block, p: Parsed, rest: string)
    requires Readable(parse, b, p)
    ensures parse(b.text + rest) == [p] + parse(rest)
  {
  }

  lemma {:induction false} ParseJoined(parse: Parser, group: seq<Block>, parsed: seq<Parsed>, rest: string)
    requires AllReadable(parse, group, parsed)
    ensures parse(Joined(group) + rest) == parsed + parse(rest)
    decreases |group|
  {
    if group == [] {
      assert Joined(group) + rest == rest && parsed == [];
    } else {
      var n := |group| - 1;
      assert ReadableAt(parse, group, parsed, n);
      ReadNext(parse, group[n], parsed[n], rest);
      FrontIsReadable(parse, group, parsed, n);
      ParseJoined(parse, group[..n], parsed[..n], group[n].text + rest);
      assert Joined(group) + rest == Joined(group[..n]) + (group[n].text + rest);
      assert parsed == parsed[..n] + [parsed[n]];
    }
  }

  lemma FrontIsReadable(parse: Parser, blocks: seq<Block>, parsed: seq<Parsed>, n: nat)
    requires AllReadable(parse, blocks, parsed) && n <= |blocks|
    ensures AllReadable(parse, blocks[..n], parsed[..n]) && AllReadable(parse, blocks[n..], parsed[n..])
  {
    forall i: nat ensures ReadableAt(parse, blocks[..n], parsed[..n], i) { assert ReadableAt(parse, blocks, parsed, i); }
    forall i: nat ensures ReadableAt(parse, blocks[n..], parsed[n..], i) { assert ReadableAt(parse, blocks, parsed, n + i); }
  }

  lemma ParseFile(parse: Parser, group: seq<Block>, parsed: seq<Parsed>)
    requires AllReadable(parse, group, parsed) && parse([]) == []
    ensures parse(Joined(group)) == parsed
  {
    ParseJoined(parse, group, parsed, []);
    assert Joined(group) + [] == Joined(group);
  }

  lemma {:induction false} BackwardsAppend(a: seq<Parsed>, b: seq<Parsed>)
    ensures Backwards(a + b) == Backwards(b) + Backwards(a)
    decreases |b|
  {
    if b == [] {
      assert a + b == a;
    } else {
      var front, last := b[..|b| - 1], b[|b| - 1];
      BackwardsAppend(a, front);
      BackwardsSnoc(a + front, last);
      BackwardsSnoc(front, last);
      assert a + front + [last] == a + b && front + [last] == b;
      Associate([last], Backwards(front), Backwards(a));
    }
  }

  lemma Associate(x: seq<Parsed>, y: seq<Parsed>, z: seq<Parsed>)
    ensures x + (y + z) == x + y + z
  {
  }

  lemma BackwardsSnoc(s: seq<Parsed>, p: Parsed)
    ensures Backwards(s + [p]) == [p] + Backwards(s)
  {
    assert (s + [p])[..|s|] == s;
  }

  lemma {:induction false} VisitedIsBackwards(parse: Parser, groups: Groups, from: nat, maxFiles: nat, parsed: seq<Parsed>)
    requires parse([]) == [] && from <= |groups| <= maxFiles && AllReadable(parse, Kept(groups[from..]), parsed)
    ensures Visited(parse, FilesOf(groups), from, maxFiles) == Backwards(parsed)
    decreases maxFiles - from
  {
    if from == |groups| {
      assert groups[from..] == [];
      NothingToVisit(parse, FilesOf(groups), from, maxFiles);
    } else {
      var group := groups[from];
      assert groups[from..][1..] == groups[from + 1..] && Kept(groups[from..]) == Kept(groups[from + 1..]) + group;
      var n := |parsed| - |group|;
      var older := Kept(groups[from + 1..]);
      FrontIsReadable(parse, older + group, parsed, n);
      assert (older + group)[..n] == older && (older + group)[n..] == group;
      ParseFile(parse, group, parsed[n..]);
      VisitedIsBackwards(parse, groups, from + 1, maxFiles, parsed[..n]);
      BackwardsAppend(parsed[..n], parsed[n..]);
      assert parsed == parsed[..n] + parsed[n..];
    }
  }

  lemma {:induction false} NothingToVisit(parse: Parser, files: Directory, from: nat, maxFiles: nat)
    requires forall i | i in files :: i < from
    ensures Visited(parse, files, from, maxFiles) == []
    decreases maxFiles - from
  {
    if from < maxFiles { NothingToVisit(parse, files, from + 1, maxFiles); }
  }

  // ---------------------------------------------------------------- theorems

  function Blocks(m: Markers, history: seq<Record>): seq<Block> {
    if history == [] then [] else [Block(Format(m, history[0]))] + Blocks(m, history[1..])
  }

  lemma {:induction false} SameLength(m: Markers, history: seq<Record>)
    ensures |Blocks(m, history)| == |AsParsed(m, history)| == |history|
  {
    if history != [] { SameLength(m, history[1..]); }
  }

  lemma {:induction false} BlockAt(m: Markers, history: seq<Record>, i: nat)
    requires i < |history|
    ensures |Blocks(m, history)| == |AsParsed(m, history)| == |history| && Blocks(m, history)[i] == Block(Format(m, history[i]))
    ensures AsParsed(m, history)[i] == Parsed(history[i].metadata, Format(m, history[i]))
  {
    SameLength(m, history);
    if i > 0 { BlockAt(m, history[1..], i - 1); }
  }

  /**
   * The files hold the last `n` records of the history, at least the newest: reading them newest first yields exactly
   * these, in reverse order.
   */
  predicate HoldsLast(parse: Parser, files: Directory, parsed: seq<Parsed>, n: nat, maxFiles: nat) {
    && n <= |parsed| && (parsed != [] ==> n >= 1)
    && Visited(parse, files, 0, maxFiles) == Backwards(parsed[|parsed| - n..])
    && forall i | i in files :: i < maxFiles
  }

  /** How many records of the history the files still hold. */
  function KeptCount(blocks: seq<Block>, limits: Limits): nat {
    |Kept(Grouped(blocks, limits))|
  }

  predicate SoundAt(m: Markers, history: seq<Record>, summaryId: SummaryId, i: nat) {
    i < |history| ==> Sound(m, history[i], summaryId)
  }

  /** Every record of the history can be told apart from the markers around it. */
  ghost predicate AllSound(m: Markers, history: seq<Record>, summaryId: SummaryId) {
    forall i: nat :: SoundAt(m, history, summaryId, i)
  }

  lemma SoundIsReadable(m: Markers, r: Record, summaryId: SummaryId)
    requires MarkersOk(m) && Sound(m, r, summaryId)
    ensures Readable(ParserOf(m, summaryId), Block(Format(m, r)), Parsed(r.metadata, Format(m, r)))
  {
    forall rest: string ensures Parse(m, Format(m, r) + rest, summaryId) == [Parsed(r.metadata, Format(m, r))] + Parse(m, rest, summaryId) {
      FirstBlock(m, r, Format(m, r), rest, summaryId);
    }
  }

  lemma FormattedAreBlocks(m: Markers, history: seq<Record>)
    ensures AreBlocks(Blocks(m, history))
  {
    SameLength(m, history);
    forall i | 0 <= i < |history| ensures IsBlock(Blocks(m, history)[i]) {
      BlockAt(m, history, i);
      FormatIsBlock(m, history[i], Format(m, history[i]));
    }
  }

  lemma FormatIsBlock(m: Markers, r: Record, text: string)
    requires text == Format(m, r)
    ensures IsBlock(Block(text))
  {
    BlockEnds(m, r, text);
  }

  /** After any number of appends to an empty directory, the files are the end of the history. */
  lemma LogIsSuffixOfHistory(m: Markers, history: seq<Record>, limits: Limits, summaryId: SummaryId)
    requires MarkersOk(m) && limits.maxFiles >= 1 && AllSound(m, history, summaryId)
    ensures HoldsLast(ParserOf(m, summaryId), Written(Blocks(m, history), limits), AsParsed(m, history), KeptCount(Blocks(m, history), limits),
                      limits.maxFiles)
  {
    FormattedAreBlocks(m, history);
    RecordsAreReadable(m, history, summaryId);
    LogOfBlocks(ParserOf(m, summaryId), Blocks(m, history), AsParsed(m, history), limits);
  }

  /** The same for the markers Proxy writes. */
  lemma ProxyLogIsSuffixOfHistory(history: seq<Record>, limits: Limits, summaryId: SummaryId)
    requires limits.maxFiles >= 1 && AllSound(Ghcp, history, summaryId)
    ensures HoldsLast(ParserOf(Ghcp, summaryId), Written(Blocks(Ghcp, history), limits), AsParsed(Ghcp, history),
                      KeptCount(Blocks(Ghcp, history), limits), limits.maxFiles)
  {
    GhcpMarkersOk();
    LogIsSuffixOfHistory(Ghcp, history, limits, summaryId);
  }

  lemma RecordsAreReadable(m: Markers, history: seq<Record>, summaryId: SummaryId)
    requires MarkersOk(m) && AllSound(m, history, summaryId)
    ensures AllReadable(ParserOf(m, summaryId), Blocks(m, history), AsParsed(m, history))
  {
    SameLength(m, history);
    forall i: nat ensures ReadableAt(ParserOf(m, summaryId), Blocks(m, history), AsParsed(m, history), i) {
      if i < |history| {
        assert SoundAt(m, history, summaryId, i);
        BlockAt(m, history, i);
        SoundIsReadable(m, history[i], summaryId);
      }
    }
  }

  lemma LogOfBlocks(parse: Parser, blocks: seq<Block>, parsed: seq<Parsed>, limits: Limits)
    requires parse([]) == [] && limits.maxFiles >= 1 && AreBlocks(blocks) && AllReadable(parse, blocks, parsed)
    ensures HoldsLast(parse, Written(blocks, limits), parsed, KeptCount(blocks, limits), limits.maxFiles)
  {
    WrittenIsGrouped(blocks, limits);
    KeptIsSuffix(blocks, limits);
    GroupsAreRead(parse, Grouped(blocks, limits), blocks, parsed, limits);
  }

  lemma AllFilesVisited(parse: Parser, groups: Groups, maxFiles: nat, last: seq<Parsed>)
    requires parse([]) == [] && |groups| <= maxFiles && AllReadable(parse, Kept(groups), last)
    ensures Visited(parse, FilesOf(groups), 0, maxFiles) == Backwards(last)
  {
    assert groups[0..] == groups;
    VisitedIsBackwards(parse, groups, 0, maxFiles, last);
  }

  lemma GroupsAreRead(parse: Parser, groups: Groups, blocks: seq<Block>, parsed: seq<Parsed>, limits: Limits)
    requires parse([]) == [] && |groups| <= limits.maxFiles && IsSuffix(Kept(groups), blocks) && AllReadable(parse, blocks, parsed)
    requires blocks != [] ==> Kept(groups) != []
    ensures HoldsLast(parse, FilesOf(groups), parsed, |Kept(groups)|, limits.maxFiles)
  {
    SuffixIsReadable(parse, Kept(groups), blocks, parsed);
    AllFilesVisited(parse, groups, limits.maxFiles, parsed[|parsed| - |Kept(groups)|..]);
  }

  lemma SuffixIsReadable(parse: Parser, kept: seq<Block>, blocks: seq<Block>, parsed: seq<Parsed>)
    requires IsSuffix(kept, blocks) && AllReadable(parse, blocks, parsed)
    ensures AllReadable(parse, kept, parsed[|blocks| - |kept|..])
  {
    FrontIsReadable(parse, blocks, parsed, |blocks| - |kept|);
  }

  /** A file was left for the next only when the next record no longer fitted. */
  predicate AreFilled(groups: Groups, limits: Limits) {
    && (forall i | 0 <= i < |groups| :: groups[i] != [])
    && forall i {:trigger groups[i]} | 0 < i < |groups| :: Bytes(Joined(groups[i])) + Bytes(groups[i - 1][0].text) > limits.maxFileBytes
  }

  lemma AfterIsFilled(groups: Groups, b: Block, limits: Limits)
    requires AreFilled(groups, limits)
    ensures AreFilled(GroupsAfter(groups, b, limits), limits)
  {
    var after := GroupsAfter(groups, b, limits);
    if groups != [] && Full(groups[0], b, limits) {
      forall i | 0 < i < |after| ensures Bytes(Joined(after[i])) + Bytes(after[i - 1][0].text) > limits.maxFileBytes {
        assert after[i] == groups[i - 1] && after[i - 1] == if i == 1 then [b] else groups[i - 2];
      }
    } else if groups != [] {
      assert (groups[0] + [b])[0] == groups[0][0];
      forall i | 0 < i < |after| ensures Bytes(Joined(after[i])) + Bytes(after[i - 1][0].text) > limits.maxFileBytes {
        assert after[i] == groups[i];
      }
    }
  }

  lemma AfterDropsOnlyWhenFull(groups: Groups, b: Block, limits: Limits)
    requires |groups| <= limits.maxFiles && limits.maxFiles >= 1
    ensures var after := GroupsAfter(groups, b, limits);
      && |after| >= |groups| && (|Kept(after)| < |Kept(groups)| + 1 ==> |after| == limits.maxFiles)
  {
    if groups == [] {
      assert [[b]][1..] == [] && Kept([[b]]) == Kept([]) + [b];
    } else if Full(groups[0], b, limits) {
      var all := [[b]] + groups;
      assert all[1..] == groups && Kept(all) == Kept(groups) + [b];
    } else {
      KeptInPlace(groups, b);
    }
  }

  /**
   * No file is left half empty, and nothing is dropped early: every older file could not take the first record of the next
   * one, and records are missing only when all the files are in use.
   */
  lemma {:induction false} LogUsesItsRoom(history: seq<Block>, limits: Limits)
    requires limits.maxFiles >= 1
    ensures var groups := Grouped(history, limits);
      && AreFilled(groups, limits) && |groups| <= limits.maxFiles
      && |Kept(groups)| <= |history| && (|Kept(groups)| < |history| ==> |groups| == limits.maxFiles)
  {
    KeptIsSuffix(history, limits);
    if history != [] {
      var front, b := history[..|history| - 1], history[|history| - 1];
      LogUsesItsRoom(front, limits);
      AfterIsFilled(Grouped(front, limits), b, limits);
      AfterDropsOnlyWhenFull(Grouped(front, limits), b, limits);
    }
  }

  /** Each file holds whole records, and more than one only within the size limit. */
  lemma FilesFitTheLimit(m: Markers, history: seq<Record>, limits: Limits, i: nat)
    requires limits.maxFiles >= 1 && i in Written(Blocks(m, history), limits)
    ensures exists group :: GroupOk(group, limits) && Written(Blocks(m, history), limits)[i] == Joined(group)
  {
    FormattedAreBlocks(m, history);
    WrittenIsGrouped(Blocks(m, history), limits);
    var groups := Grouped(Blocks(m, history), limits);
    assert GroupOk(groups[i], limits);
  }

  // ---------------------------------------------------------------- the store

  /** The files from `index` on have moved up, and the place at `index` is empty. */
  predicate MovedAt(files: Directory, now: Directory, index: nat, maxFiles: nat, i: nat) {
    if i < index then if i in files then i in now && now[i] == files[i] else i !in now
    else if i > index && i < maxFiles && i - 1 in files then i in now && now[i] == files[i - 1]
    else i !in now
  }

  ghost predicate Moved(files: Directory, now: Directory, index: nat, maxFiles: nat) {
    forall i: nat :: MovedAt(files, now, index, maxFiles, i)
  }

  lemma OldestIsGone(files: Directory, maxFiles: nat)
    requires maxFiles >= 1 && forall i | i in files :: i < maxFiles
    ensures Moved(files, files - {maxFiles - 1}, maxFiles - 1, maxFiles)
  {
  }

  lemma MoveNext(files: Directory, now: Directory, index: nat, maxFiles: nat)
    requires 0 < index < maxFiles && Moved(files, now, index, maxFiles)
    ensures Moved(files, if index - 1 in now then now[index := now[index - 1]] - {index - 1} else now, index - 1, maxFiles)
  {
    var prev := index - 1;
    var next := if prev in now then now[index := now[prev]] - {prev} else now;
    assert MovedAt(files, now, index, maxFiles, prev);
    forall i: nat ensures MovedAt(files, next, prev, maxFiles, i) { assert MovedAt(files, now, index, maxFiles, i); }
  }

  lemma AllMoved(files: Directory, now: Directory, limits: Limits)
    requires Moved(files, now, 0, limits.maxFiles)
    ensures now == Rotated(files, limits)
  {
    forall i: nat ensures i in now <==> i in OneUp(files, limits.maxFiles) {
      assert MovedAt(files, now, 0, limits.maxFiles, i);
      if i in now { assert i - 1 in files; }
    }
    forall i | i in now ensures now[i] == Rotated(files, limits)[i] { assert MovedAt(files, now, 0, limits.maxFiles, i); }
  }

  class ErrorDiagnosticsStore {
    var files: Directory
    const limits: Limits

    constructor (limits: Limits)
      requires limits.maxFiles >= 1
      ensures this.limits == limits && files == map[]
    {
      this.limits, files := limits, map[];
    }

    /** Renames from the oldest file down, so that no rename replaces a file that still has to move. */
    method Rotate()
      requires limits.maxFiles >= 1 && forall i | i in files :: i < limits.maxFiles
      modifies this
      ensures files == Rotated(old(files), limits)
    {
      OldestIsGone(files, limits.maxFiles);
      files := files - {limits.maxFiles - 1};
      var index := limits.maxFiles - 1;
      while index > 0
        invariant 0 <= index < limits.maxFiles && Moved(old(files), files, index, limits.maxFiles)
      {
        MoveNext(old(files), files, index, limits.maxFiles);
        index := index - 1;
        if index in files { files := files[index + 1 := files[index]] - {index}; }
      }
      AllMoved(old(files), files, limits);
    }

    method Append(block: string)
      requires limits.maxFiles >= 1 && forall i | i in files :: i < limits.maxFiles
      modifies this
      ensures files == Appended(old(files), block, limits)
      ensures forall i | i in files :: i < limits.maxFiles
    {
      var active := if 0 in files then files[0] else [];
      var prefix := if active != [] && active[|active| - 1] != '\n' then "\n" else "";
      if Bytes(active) > 0 && Bytes(active) + Bytes(prefix) + Bytes(block) > limits.maxFileBytes {
        Rotate();
        active, prefix := [], "";
      }
      assert [] + "" + block == block;
      files := files[0 := active + prefix + block];
    }

    method VisitNewestFirst(parse: Parser) returns (visited: seq<Parsed>)
      ensures visited == Visited(parse, files, 0, limits.maxFiles)
    {
      visited := [];
      var fileIndex := 0;
      while fileIndex < limits.maxFiles
        invariant fileIndex <= limits.maxFiles
        invariant visited + Visited(parse, files, fileIndex, limits.maxFiles) == Visited(parse, files, 0, limits.maxFiles)
      {
        if fileIndex in files {
          var back := Reversed(parse(files[fileIndex]));
          ghost var later := Visited(parse, files, fileIndex + 1, limits.maxFiles);
          assert visited + (back + later) == visited + back + later;
          visited := visited + back;
        }
        fileIndex := fileIndex + 1;
      }
    }
  }

  method Reversed(records: seq<Parsed>) returns (back: seq<Parsed>)
    ensures back == Backwards(records)
  {
    back := [];
    var i := |records|;
    assert records[..i] == records && back + Backwards(records) == Backwards(records);
    while i > 0
      invariant 0 <= i <= |records| && back + Backwards(records[..i]) == Backwards(records)
    {
      assert records[..i][..i - 1] == records[..i - 1];
      i := i - 1;
      back := back + [records[i]];
    }
  }
}
