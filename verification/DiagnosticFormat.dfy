/**
 * The framing of diagnostic records in a log file: a marker line with the record's id, a metadata line, the body, and an
 * end marker. The reader finds marker lines by scanning the text.
 */
module DiagnosticFormat {
  import opened Common

  datatype Markers = Markers(begin: string, end: string, metadata: string, closing: string)

  const Banner := "===== " + "GHCP " + "PROXY " + "ERROR " + "DIAGNOSTIC "

  const Ghcp := Markers(Banner + "BEGIN ", Banner + "END ", "Metadata: ", " =====")

  /** `metadata` is the summary as JSON text, `body` everything between the metadata line and the end marker. */
  datatype Record = Record(id: string, metadata: string, body: string)

  /** What the reader returns: the summary text and the whole block. */
  datatype Parsed = Parsed(metadata: string, content: string)

  /** The id found in a summary, None when the text is not a summary; JSON itself is not modelled. */
  type SummaryId = string -> Option<string>

  // ---------------------------------------------------------------- writing

  function Concat(parts: seq<string>): string {
    if parts == [] then [] else parts[0] + Concat(parts[1..])
  }

  function EndMarker(m: Markers, id: string): string {
    Concat(["\n", m.end, id, m.closing])
  }

  function Foot(m: Markers, r: Record): string {
    r.body + (EndMarker(m, r.id) + "\n")
  }

  function Format(m: Markers, r: Record): string {
    m.begin + (r.id + (m.closing + ("\n" + (m.metadata + (r.metadata + ("\n" + Foot(m, r)))))))
  }

  function FormatAll(m: Markers, records: seq<Record>): string {
    if records == [] then [] else Format(m, records[0]) + FormatAll(m, records[1..])
  }

  // ---------------------------------------------------------------- reading

  predicate IsTerminator(c: char) {
    c == '\n' || c == '\r' || c == '\U{2028}' || c == '\U{2029}'
  }

  predicate LineStart(s: string, i: nat) {
    i == 0 || (i <= |s| && IsTerminator(s[i - 1]))
  }

  predicate LineEnd(s: string, i: nat) {
    i == |s| || (i < |s| && IsTerminator(s[i]))
  }

  predicate StartsAt(s: string, i: nat, t: string) {
    i + |t| <= |s| && forall k {:trigger t[k]} | 0 <= k < |t| :: s[i + k] == t[k]
  }

  predicate IsIdChar(c: char) {
    '0' <= c <= '9' || 'a' <= c <= 'f' || c == '-'
  }

  /** The end of the run of id characters from `i` on. */
  function IdEnd(s: string, i: nat): (e: nat)
    requires i <= |s|
    ensures i <= e <= |s| && (forall k | i <= k < e :: IsIdChar(s[k])) && (e == |s| || !IsIdChar(s[e]))
    decreases |s| - i
  {
    if i < |s| && IsIdChar(s[i]) then IdEnd(s, i + 1) else i
  }

  /** The rest of a marker line: an id from `start` on, the closing text, and the end of the line. */
  function LineRest(m: Markers, s: string, start: nat): (e: Option<nat>)
    requires start <= |s|
    ensures e.Some? ==> start < e.value && e.value + |m.closing| <= |s|
  {
    var e := IdEnd(s, start);
    if e > start && StartsAt(s, e, m.closing) && LineEnd(s, e + |m.closing|) then Some(e) else None
  }

  /** The marker line at `i`: where its id ends, if there is one. The pattern is anchored to whole lines. */
  function BeginAt(m: Markers, s: string, i: nat): (e: Option<nat>)
    ensures e.Some? ==> i + |m.begin| < e.value && e.value + |m.closing| <= |s|
  {
    if LineStart(s, i) && StartsAt(s, i, m.begin) then LineRest(m, s, i + |m.begin|) else None
  }

  function IndexOf(s: string, t: string, from: nat): (r: Option<nat>)
    ensures r.Some? ==> from <= r.value && r.value + |t| <= |s|
    decreases |s| - from
  {
    if from + |t| > |s| then None else if StartsAt(s, from, t) then Some(from) else if from < |s| then IndexOf(s, t, from + 1) else None
  }

  /** Where the metadata line of a block ends and where its end marker stands, in this order. */
  function Locate(s: string, marker: string, bodyStart: nat): (at: Option<(nat, nat)>)
    ensures at.Some? ==> bodyStart <= at.value.0 <= at.value.1 && at.value.1 + |marker| <= |s|
  {
    var end := IndexOf(s, marker, bodyStart);
    var lineEnd := IndexOf(s, "\n", bodyStart);
    if end.None? || lineEnd.None? || lineEnd.value > end.value then None else Some((lineEnd.value, end.value))
  }

  /** A newline right after the end marker belongs to the block. */
  function BlockText(s: string, i: nat, blockEnd: nat): string
    requires i <= blockEnd <= |s|
  {
    if blockEnd < |s| && s[blockEnd] == '\n' then s[i..blockEnd + 1] else s[i..blockEnd]
  }

  function Summary(m: Markers, line: string, id: string, summaryId: SummaryId): Option<string> {
    if StartsAt(line, 0, m.metadata) && summaryId(line[|m.metadata|..]) == Some(id) then Some(line[|m.metadata|..]) else None
  }

  /** The block from `i` on, with its metadata line from `bodyStart` to `lineEnd`. */
  function Framed(m: Markers, s: string, i: nat, id: string, bodyStart: nat, lineEnd: nat, blockEnd: nat, summaryId: SummaryId): Option<Parsed>
    requires i <= bodyStart <= lineEnd <= blockEnd <= |s|
  {
    var summary := Summary(m, s[bodyStart..lineEnd], id, summaryId);
    if summary.None? then None else Some(Parsed(summary.value, BlockText(s, i, blockEnd)))
  }

  function FramedAt(m: Markers, s: string, i: nat, id: string, length: nat, bodyStart: nat, at: Option<(nat, nat)>, summaryId: SummaryId): Option<Parsed>
    requires i <= bodyStart && (at.Some? ==> bodyStart <= at.value.0 <= at.value.1 && at.value.1 + length <= |s|)
  {
    if at.None? then None else Framed(m, s, i, id, bodyStart, at.value.0, at.value.1 + length, summaryId)
  }

  /** The block from `i` on, whose metadata line starts at `bodyStart`. */
  function ReadFrom(m: Markers, s: string, i: nat, id: string, marker: string, bodyStart: nat, summaryId: SummaryId): Option<Parsed>
    requires i <= bodyStart
  {
    FramedAt(m, s, i, id, |marker|, bodyStart, Locate(s, marker, bodyStart), summaryId)
  }

  /** Reads a block: the text, where the block starts, its id, its end marker and where its metadata line starts. */
  type BodyReader = (string, nat, string, string, nat) -> Option<Parsed>

  function ReadBody(m: Markers, summaryId: SummaryId): BodyReader {
    (s: string, i: nat, id: string, marker: string, bodyStart: nat) =>
      if i <= bodyStart then ReadFrom(m, s, i, id, marker, bodyStart, summaryId) else None
  }

  /** The record whose marker line starts at `i` and whose id ends at `e`. */
  function ReadBlock(m: Markers, s: string, i: nat, e: nat, body: BodyReader): Option<Parsed>
    requires i + |m.begin| <= e <= |s|
  {
    var id := s[i + |m.begin|..e];
    body(s, i, id, EndMarker(m, id), e + |m.closing| + 1)
  }

  function AsSeq(p: Option<Parsed>): seq<Parsed> {
    if p.Some? then [p.value] else []
  }

  /** Finds a marker line that starts at the position: where the scan resumes. */
  type Finder = (string, nat) -> Option<nat>

  /** Reads the block of the marker line that starts at the first position and ends at the second. */
  type Reader = (string, nat, nat) -> Option<Parsed>

  function LineFinder(m: Markers): Finder {
    (s: string, i: nat) => var e := BeginAt(m, s, i); if e.Some? then Some(e.value + |m.closing|) else None
  }

  function BlockReader(m: Markers, body: BodyReader): Reader {
    (s: string, i: nat, end: nat) =>
      if i + |m.begin| + |m.closing| <= end <= |s| then ReadBlock(m, s, i, end - |m.closing|, body) else None
  }

  /** The scan resumes after the marker line, whether or not its block was sound. */
  function Scan(s: string, from: nat, find: Finder, read: Reader): seq<Parsed>
    decreases |s| - from
  {
    if from >= |s| then []
    else
      var end := find(s, from);
      if end.None? || end.value <= from then Scan(s, from + 1, find, read)
      else AsSeq(read(s, from, end.value)) + Scan(s, end.value, find, read)
  }

  function Parse(m: Markers, s: string, summaryId: SummaryId): seq<Parsed> {
    Scan(s, 0, LineFinder(m), BlockReader(m, ReadBody(m, summaryId)))
  }

  method ScanLog(s: string, find: Finder, read: Reader) returns (records: seq<Parsed>)
    ensures records == Scan(s, 0, find, read)
  {
    records := [];
    var at := 0;
    while at < |s|
      invariant records + Scan(s, at, find, read) == Scan(s, 0, find, read)
      decreases |s| - at
    {
      var end := find(s, at);
      if end.None? || end.value <= at { at := at + 1; continue; }
      var block := AsSeq(read(s, at, end.value));
      assert records + (block + Scan(s, end.value, find, read)) == records + block + Scan(s, end.value, find, read);
      records := records + block;
      at := end.value;
    }
  }

  method ParseDiagnosticLog(m: Markers, s: string, summaryId: SummaryId) returns (records: seq<Parsed>)
    ensures records == Parse(m, s, summaryId)
  {
    records := ScanLog(s, LineFinder(m), BlockReader(m, ReadBody(m, summaryId)));
  }

  // ---------------------------------------------------------------- text behind a newline is read as if it stood alone

  /** `s` is `n` characters followed by `b`. */
  predicate Tail(s: string, n: nat, b: string) {
    |s| == n + |b| && forall k {:trigger b[k]} | 0 <= k < |b| :: s[n + k] == b[k]
  }

  predicate BehindNewline(s: string, n: nat, b: string) {
    Tail(s, n, b) && n > 0 && s[n - 1] == '\n'
  }

  function Shifted(n: nat, at: Option<nat>): Option<nat> {
    if at.Some? then Some(n + at.value) else None
  }

  lemma SliceShift(s: string, n: nat, b: string, i: nat, j: nat)
    requires Tail(s, n, b) && i <= j <= |b|
    ensures s[n + i..n + j] == b[i..j]
  {
  }

  lemma {:induction false} IdEndShift(s: string, n: nat, b: string, i: nat)
    requires Tail(s, n, b) && i <= |b|
    ensures IdEnd(s, n + i) == n + IdEnd(b, i)
    decreases |b| - i
  {
    if i < |b| && IsIdChar(b[i]) { IdEndShift(s, n, b, i + 1); }
  }

  lemma StartsShift(s: string, n: nat, b: string, i: nat, t: string)
    requires Tail(s, n, b)
    ensures StartsAt(s, n + i, t) <==> StartsAt(b, i, t)
  {
    if StartsAt(s, n + i, t) {
      forall k | 0 <= k < |t| ensures b[i + k] == t[k] { assert s[n + i + k] == t[k]; }
    } else if StartsAt(b, i, t) {
      forall k | 0 <= k < |t| ensures s[n + i + k] == t[k] { assert b[i + k] == t[k]; }
    }
  }

  lemma LineStartShift(s: string, n: nat, b: string, i: nat)
    requires BehindNewline(s, n, b) && i <= |b|
    ensures LineStart(s, n + i) <==> LineStart(b, i)
  {
    if i > 0 { assert s[n + (i - 1)] == b[i - 1]; }
  }

  lemma LineRestShift(m: Markers, s: string, n: nat, b: string, start: nat)
    requires Tail(s, n, b) && start <= |b|
    ensures LineRest(m, s, n + start) == Shifted(n, LineRest(m, b, start))
  {
    var e := IdEnd(b, start);
    IdEndShift(s, n, b, start);
    StartsShift(s, n, b, e, m.closing);
    if e + |m.closing| < |b| { assert s[n + (e + |m.closing|)] == b[e + |m.closing|]; }
  }

  lemma BeginShift(m: Markers, s: string, n: nat, b: string, i: nat)
    requires BehindNewline(s, n, b) && i <= |b|
    ensures BeginAt(m, s, n + i) == Shifted(n, BeginAt(m, b, i))
  {
    LineStartShift(s, n, b, i);
    StartsShift(s, n, b, i, m.begin);
    if StartsAt(b, i, m.begin) { LineRestShift(m, s, n, b, i + |m.begin|); }
  }

  lemma {:induction false} IndexOfShift(s: string, n: nat, b: string, t: string, from: nat)
    requires Tail(s, n, b)
    ensures IndexOf(s, t, n + from) == Shifted(n, IndexOf(b, t, from))
    decreases |b| - from
  {
    StartsShift(s, n, b, from, t);
    if from + |t| <= |b| && from < |b| { IndexOfShift(s, n, b, t, from + 1); }
  }

  lemma LocateShift(s: string, n: nat, b: string, marker: string, bodyStart: nat)
    requires Tail(s, n, b)
    ensures Locate(s, marker, n + bodyStart) == ShiftedPair(n, Locate(b, marker, bodyStart))
  {
    IndexOfShift(s, n, b, marker, bodyStart);
    IndexOfShift(s, n, b, "\n", bodyStart);
  }

  lemma BlockTextShift(s: string, n: nat, b: string, i: nat, blockEnd: nat)
    requires Tail(s, n, b) && i <= blockEnd <= |b|
    ensures BlockText(s, n + i, n + blockEnd) == BlockText(b, i, blockEnd)
  {
    SliceShift(s, n, b, i, blockEnd);
    if blockEnd < |b| { SliceShift(s, n, b, i, blockEnd + 1); }
  }

  lemma FramedShift(m: Markers, s: string, n: nat, b: string, i: nat, id: string, bodyStart: nat, lineEnd: nat, blockEnd: nat, summaryId: SummaryId)
    requires Tail(s, n, b) && i <= bodyStart <= lineEnd <= blockEnd <= |b|
    ensures Framed(m, s, n + i, id, n + bodyStart, n + lineEnd, n + blockEnd, summaryId)
      == Framed(m, b, i, id, bodyStart, lineEnd, blockEnd, summaryId)
  {
    SliceShift(s, n, b, bodyStart, lineEnd);
    BlockTextShift(s, n, b, i, blockEnd);
  }

  function ShiftedPair(n: nat, at: Option<(nat, nat)>): Option<(nat, nat)> {
    if at.Some? then Some((n + at.value.0, n + at.value.1)) else None
  }

  lemma FramedAtShift(m: Markers, s: string, n: nat, b: string, i: nat, id: string, length: nat, bodyStart: nat, at: Option<(nat, nat)>, summaryId: SummaryId)
    requires Tail(s, n, b) && i <= bodyStart && (at.Some? ==> bodyStart <= at.value.0 <= at.value.1 && at.value.1 + length <= |b|)
    ensures FramedAt(m, s, n + i, id, length, n + bodyStart, ShiftedPair(n, at), summaryId)
      == FramedAt(m, b, i, id, length, bodyStart, at, summaryId)
  {
    if at.Some? { FramedShift(m, s, n, b, i, id, bodyStart, at.value.0, at.value.1 + length, summaryId); }
  }

  lemma ReadFromShift(m: Markers, s: string, n: nat, b: string, i: nat, id: string, marker: string, bodyStart: nat, summaryId: SummaryId)
    requires Tail(s, n, b) && i <= bodyStart
    ensures ReadFrom(m, s, n + i, id, marker, n + bodyStart, summaryId) == ReadFrom(m, b, i, id, marker, bodyStart, summaryId)
  {
    LocateShift(s, n, b, marker, bodyStart);
    FramedAtShift(m, s, n, b, i, id, |marker|, bodyStart, Locate(b, marker, bodyStart), summaryId);
  }

  predicate BodyAlike(body: BodyReader, s: string, n: nat, b: string, i: nat, id: string, marker: string, bodyStart: nat) {
    body(s, n + i, id, marker, n + bodyStart) == body(b, i, id, marker, bodyStart)
  }

  ghost predicate BodyShifts(body: BodyReader, s: string, n: nat, b: string) {
    forall i: nat, id: string, marker: string, bodyStart: nat :: BodyAlike(body, s, n, b, i, id, marker, bodyStart)
  }

  lemma ReadBodyAt(m: Markers, s: string, n: nat, b: string, summaryId: SummaryId, i: nat, id: string, marker: string, bodyStart: nat)
    requires Tail(s, n, b)
    ensures BodyAlike(ReadBody(m, summaryId), s, n, b, i, id, marker, bodyStart)
  {
    if i <= bodyStart { ReadFromShift(m, s, n, b, i, id, marker, bodyStart, summaryId); }
  }

  lemma ReadBodyShift(m: Markers, s: string, n: nat, b: string, summaryId: SummaryId)
    requires Tail(s, n, b)
    ensures BodyShifts(ReadBody(m, summaryId), s, n, b)
  {
    forall i: nat, id: string, marker: string, bodyStart: nat ensures BodyAlike(ReadBody(m, summaryId), s, n, b, i, id, marker, bodyStart) {
      ReadBodyAt(m, s, n, b, summaryId, i, id, marker, bodyStart);
    }
  }

  lemma ReadBlockShift(m: Markers, s: string, n: nat, b: string, i: nat, e: nat, body: BodyReader)
    requires Tail(s, n, b) && i + |m.begin| <= e <= |b| && BodyShifts(body, s, n, b)
    ensures ReadBlock(m, s, n + i, n + e, body) == ReadBlock(m, b, i, e, body)
  {
    SliceShift(s, n, b, i + |m.begin|, e);
    var id := b[i + |m.begin|..e];
    assert BodyAlike(body, s, n, b, i, id, EndMarker(m, id), e + |m.closing| + 1);
  }

  predicate FindAlike(find: Finder, s: string, n: nat, b: string, i: nat) {
    i < |b| ==> find(s, n + i) == Shifted(n, find(b, i))
  }

  predicate ReadAlike(read: Reader, s: string, n: nat, b: string, i: nat, e: nat) {
    read(s, n + i, n + e) == read(b, i, e)
  }

  /** `find` and `read` do not look at what stands before the position. */
  ghost predicate Shifts(find: Finder, read: Reader, s: string, n: nat, b: string) {
    (forall i: nat :: FindAlike(find, s, n, b, i)) && (forall i: nat, e: nat :: ReadAlike(read, s, n, b, i, e))
  }

  lemma {:induction false} ScanShift(s: string, n: nat, b: string, from: nat, find: Finder, read: Reader)
    requires |s| == n + |b| && Shifts(find, read, s, n, b)
    ensures Scan(s, n + from, find, read) == Scan(b, from, find, read)
    decreases |b| - from
  {
    if from < |b| {
      var end := find(b, from);
      assert FindAlike(find, s, n, b, from);
      if end.None? || end.value <= from {
        ScanShift(s, n, b, from + 1, find, read);
      } else {
        assert ReadAlike(read, s, n, b, from, end.value);
        ScanShift(s, n, b, end.value, find, read);
      }
    }
  }

  lemma FindAt(m: Markers, s: string, n: nat, b: string, i: nat)
    requires BehindNewline(s, n, b)
    ensures FindAlike(LineFinder(m), s, n, b, i)
  {
    if i < |b| { BeginShift(m, s, n, b, i); }
  }

  lemma ReadAt(m: Markers, s: string, n: nat, b: string, body: BodyReader, i: nat, e: nat)
    requires Tail(s, n, b) && BodyShifts(body, s, n, b)
    ensures ReadAlike(BlockReader(m, body), s, n, b, i, e)
  {
    if i + |m.begin| + |m.closing| <= e <= |b| { ReadBlockShift(m, s, n, b, i, e - |m.closing|, body); }
  }

  lemma FindersShift(m: Markers, s: string, n: nat, b: string, body: BodyReader)
    requires BehindNewline(s, n, b) && BodyShifts(body, s, n, b)
    ensures Shifts(LineFinder(m), BlockReader(m, body), s, n, b)
  {
    forall i: nat ensures FindAlike(LineFinder(m), s, n, b, i) { FindAt(m, s, n, b, i); }
    forall i: nat, e: nat ensures ReadAlike(BlockReader(m, body), s, n, b, i, e) { ReadAt(m, s, n, b, body, i, e); }
  }

  /** Text behind a newline is parsed as if it stood alone. */
  lemma ParseBehindNewline(m: Markers, s: string, n: nat, b: string, summaryId: SummaryId)
    requires BehindNewline(s, n, b)
    ensures Scan(s, n, LineFinder(m), BlockReader(m, ReadBody(m, summaryId))) == Parse(m, b, summaryId)
  {
    ReadBodyShift(m, s, n, b, summaryId);
    FindersShift(m, s, n, b, ReadBody(m, summaryId));
    ScanShift(s, n, b, 0, LineFinder(m), BlockReader(m, ReadBody(m, summaryId)));
  }

  // ---------------------------------------------------------------- the layout of a block

  lemma TailOfAppend(x: string, y: string)
    ensures Tail(x + y, |x|, y) && StartsAt(x + y, 0, x)
  {
  }

  lemma TailOfTail(s: string, n: nat, b: string, k: nat, c: string)
    requires Tail(s, n, b) && Tail(b, k, c)
    ensures Tail(s, n + k, c)
  {
    forall j | 0 <= j < |c| ensures s[n + k + j] == c[j] { assert b[k + j] == c[j]; }
  }

  /** A piece of text that stands at `n`, and the text behind it. */
  lemma NextPiece(s: string, n: nat, x: string, y: string)
    requires Tail(s, n, x + y)
    ensures StartsAt(s, n, x) && Tail(s, n + |x|, y)
  {
    TailOfAppend(x, y);
    TailOfTail(s, n, x + y, |x|, y);
    StartsShift(s, n, x + y, 0, x);
  }

  function IdStop(m: Markers, r: Record): nat { |m.begin| + |r.id| }
  function BodyStart(m: Markers, r: Record): nat { IdStop(m, r) + |m.closing| + 1 }
  function MetadataStop(m: Markers, r: Record): nat { BodyStart(m, r) + |m.metadata| + |r.metadata| }
  function MarkerStart(m: Markers, r: Record): nat { MetadataStop(m, r) + 1 + |r.body| }

  lemma TwoPieces(s: string, n: nat, x: string, y: string, rest: string)
    requires Tail(s, n, x + (y + rest))
    ensures StartsAt(s, n, x) && StartsAt(s, n + |x|, y) && Tail(s, n + |x| + |y|, rest)
  {
    NextPiece(s, n, x, y + rest);
    NextPiece(s, n + |x|, y, rest);
  }

  lemma HeadLayout(m: Markers, r: Record)
    ensures var a := Format(m, r);
      && StartsAt(a, 0, m.begin) && StartsAt(a, |m.begin|, r.id) && StartsAt(a, IdStop(m, r), m.closing)
      && StartsAt(a, IdStop(m, r) + |m.closing|, "\n")
      && Tail(a, BodyStart(m, r), m.metadata + (r.metadata + ("\n" + Foot(m, r))))
  {
    var body := m.metadata + (r.metadata + ("\n" + Foot(m, r)));
    var line := m.closing + ("\n" + body);
    TwoPieces(Format(m, r), 0, m.begin, r.id, line);
    TwoPieces(Format(m, r), |m.begin| + |r.id|, m.closing, "\n", body);
  }

  lemma MetadataLayout(m: Markers, r: Record)
    ensures var a := Format(m, r);
      && StartsAt(a, BodyStart(m, r), m.metadata) && StartsAt(a, BodyStart(m, r) + |m.metadata|, r.metadata)
      && StartsAt(a, MetadataStop(m, r), "\n") && Tail(a, MetadataStop(m, r) + 1, Foot(m, r))
  {
    HeadLayout(m, r);
    TwoPieces(Format(m, r), BodyStart(m, r), m.metadata, r.metadata, "\n" + Foot(m, r));
    NextPiece(Format(m, r), MetadataStop(m, r), "\n", Foot(m, r));
  }

  lemma FootLayout(a: string, n: nat, body: string, marker: string)
    requires Tail(a, n, body + (marker + "\n"))
    ensures StartsAt(a, n + |body|, marker) && StartsAt(a, n + |body| + |marker|, "\n") && |a| == n + |body| + |marker| + 1
  {
    TwoPieces(a, n, body, marker, "\n");
    assert a[n + |body| + |marker|] == "\n"[0];
  }

  lemma BodyLayout(m: Markers, r: Record)
    ensures var a := Format(m, r);
      && StartsAt(a, MarkerStart(m, r), EndMarker(m, r.id))
      && StartsAt(a, MarkerStart(m, r) + |EndMarker(m, r.id)|, "\n")
      && |a| == MarkerStart(m, r) + |EndMarker(m, r.id)| + 1
  {
    MetadataLayout(m, r);
    FootLayout(Format(m, r), MetadataStop(m, r) + 1, r.body, EndMarker(m, r.id));
  }

  predicate OnOneLine(t: string) {
    forall k | 0 <= k < |t| :: !IsTerminator(t[k])
  }

  predicate Differ(x: string, y: string) {
    exists k :: 0 <= k < |x| && k < |y| && x[k] != y[k]
  }

  /** What the reader relies on: marker texts stay within a line, an id ends where the closing text begins, and no line
      begins like both markers. */
  predicate MarkersOk(m: Markers) {
    && m.begin != [] && m.closing != [] && !IsIdChar(m.closing[0])
    && OnOneLine(m.begin) && OnOneLine(m.end) && OnOneLine(m.closing) && '\n' !in m.metadata && Differ(m.begin, m.end)
  }

  /** `a` has the pieces of the record's block where the block has them. */
  predicate LaidOut(m: Markers, r: Record, a: string) {
    && StartsAt(a, 0, m.begin) && StartsAt(a, |m.begin|, r.id) && StartsAt(a, IdStop(m, r), m.closing)
    && StartsAt(a, IdStop(m, r) + |m.closing|, "\n")
    && StartsAt(a, BodyStart(m, r), m.metadata) && StartsAt(a, BodyStart(m, r) + |m.metadata|, r.metadata)
    && StartsAt(a, MetadataStop(m, r), "\n")
  }

  lemma FormatIsLaidOut(m: Markers, r: Record)
    ensures LaidOut(m, r, Format(m, r))
  {
    HeadLayout(m, r);
    MetadataLayout(m, r);
  }

  predicate Extends(s: string, a: string) {
    |a| <= |s| && forall k {:trigger a[k]} | 0 <= k < |a| :: s[k] == a[k]
  }

  lemma StartsExtend(s: string, a: string, i: nat, t: string)
    requires Extends(s, a) && i + |t| <= |a|
    ensures StartsAt(s, i, t) <==> StartsAt(a, i, t)
  {
    if StartsAt(s, i, t) { forall k | 0 <= k < |t| ensures a[i + k] == t[k] { assert s[i + k] == t[k]; } }
    if StartsAt(a, i, t) { forall k | 0 <= k < |t| ensures s[i + k] == t[k] { assert a[i + k] == t[k]; } }
  }

  lemma {:induction false} IdRun(s: string, i: nat, e: nat)
    requires i <= e < |s| && (forall k | i <= k < e :: IsIdChar(s[k])) && !IsIdChar(s[e])
    ensures IdEnd(s, i) == e
    decreases e - i
  {
    if i < e { IdRun(s, i + 1, e); }
  }

  lemma {:induction false} IndexOfFirst(s: string, t: string, from: nat, p: nat)
    requires from <= p && StartsAt(s, p, t) && forall q | from <= q < p :: !StartsAt(s, q, t)
    ensures IndexOf(s, t, from) == Some(p)
    decreases p - from
  {
    if from < p { IndexOfFirst(s, t, from + 1, p); }
  }

  predicate IsId(id: string) {
    id != [] && forall k | 0 <= k < |id| :: IsIdChar(id[k])
  }

  lemma LayoutExtends(m: Markers, r: Record, s: string, a: string)
    requires Extends(s, a) && LaidOut(m, r, a)
    ensures LaidOut(m, r, s)
  {
    StartsExtend(s, a, 0, m.begin);
    StartsExtend(s, a, |m.begin|, r.id);
    StartsExtend(s, a, IdStop(m, r), m.closing);
    StartsExtend(s, a, IdStop(m, r) + |m.closing|, "\n");
    StartsExtend(s, a, BodyStart(m, r), m.metadata);
    StartsExtend(s, a, BodyStart(m, r) + |m.metadata|, r.metadata);
    StartsExtend(s, a, MetadataStop(m, r), "\n");
  }

  lemma CharAt(s: string, i: nat, t: string, k: nat)
    requires StartsAt(s, i, t) && k < |t|
    ensures s[i + k] == t[k]
  {
  }

  /** The marker line of the block is found at its start. */
  lemma MarkerIsFound(m: Markers, r: Record, s: string)
    requires MarkersOk(m) && LaidOut(m, r, s) && IsId(r.id)
    ensures BeginAt(m, s, 0) == Some(IdStop(m, r))
  {
    forall k | |m.begin| <= k < IdStop(m, r) ensures IsIdChar(s[k]) { CharAt(s, |m.begin|, r.id, k - |m.begin|); }
    CharAt(s, IdStop(m, r), m.closing, 0);
    IdRun(s, |m.begin|, IdStop(m, r));
    CharAt(s, IdStop(m, r) + |m.closing|, "\n", 0);
  }

  lemma MetadataLineEnds(m: Markers, r: Record, s: string)
    requires MarkersOk(m) && LaidOut(m, r, s) && '\n' !in r.metadata
    ensures IndexOf(s, "\n", BodyStart(m, r)) == Some(MetadataStop(m, r))
  {
    forall q | BodyStart(m, r) <= q < MetadataStop(m, r) ensures !StartsAt(s, q, "\n") {
      if q < BodyStart(m, r) + |m.metadata| { CharAt(s, BodyStart(m, r), m.metadata, q - BodyStart(m, r)); }
      else { CharAt(s, BodyStart(m, r) + |m.metadata|, r.metadata, q - BodyStart(m, r) - |m.metadata|); }
      assert s[q] != '\n' && "\n"[0] == '\n';
    }
    IndexOfFirst(s, "\n", BodyStart(m, r), MetadataStop(m, r));
  }

  /** What the writer sees to: an id of id characters, and a summary on one line that names it. */
  predicate WellFormed(r: Record, summaryId: SummaryId) {
    IsId(r.id) && '\n' !in r.metadata && summaryId(r.metadata) == Some(r.id)
  }

  /** The line behind `bodyStart` is a metadata line that names `id`. */
  predicate NamedBelow(m: Markers, a: string, id: string, bodyStart: nat, summaryId: SummaryId) {
    var lineEnd := IndexOf(a, "\n", bodyStart);
    lineEnd.Some? && Summary(m, a[bodyStart..lineEnd.value], id, summaryId).Some?
  }

  /** A marker line at `i`, followed by a metadata line that names its id. */
  predicate Opens(m: Markers, a: string, i: nat, summaryId: SummaryId) {
    var e := BeginAt(m, a, i);
    e.Some? && NamedBelow(m, a, a[i + |m.begin|..e.value], e.value + |m.closing| + 1, summaryId)
  }

  /** The block's end marker stands only at its end. */
  predicate EndsOnce(m: Markers, r: Record) {
    forall q | BodyStart(m, r) <= q < MarkerStart(m, r) :: !StartsAt(Format(m, r), q, EndMarker(m, r.id))
  }

  /** The block's end marker stands only at its end, and no marker line inside is followed by a summary of its own. */
  predicate Unbroken(m: Markers, r: Record, summaryId: SummaryId) {
    EndsOnce(m, r) && forall i | 0 < i < |Format(m, r)| :: !Opens(m, Format(m, r), i, summaryId)
  }

  predicate Sound(m: Markers, r: Record, summaryId: SummaryId) {
    WellFormed(r, summaryId) && Unbroken(m, r, summaryId)
  }

  lemma EndIsFound(m: Markers, r: Record, s: string)
    requires EndsOnce(m, r) && Extends(s, Format(m, r))
    ensures IndexOf(s, EndMarker(m, r.id), BodyStart(m, r)) == Some(MarkerStart(m, r))
  {
    var a, marker := Format(m, r), EndMarker(m, r.id);
    BodyLayout(m, r);
    EndIsFoundIn(a, s, marker, BodyStart(m, r), MarkerStart(m, r));
  }

  lemma EndIsFoundIn(a: string, s: string, marker: string, from: nat, at: nat)
    requires Extends(s, a) && from <= at && StartsAt(a, at, marker) && forall q | from <= q < at :: !StartsAt(a, q, marker)
    ensures IndexOf(s, marker, from) == Some(at)
  {
    StartsExtend(s, a, at, marker);
    forall q | from <= q < at ensures !StartsAt(s, q, marker) { StartsExtend(s, a, q, marker); }
    IndexOfFirst(s, marker, from, at);
  }

  lemma MetadataLine(s: string, at: nat, prefix: string, metadata: string)
    requires StartsAt(s, at, prefix) && StartsAt(s, at + |prefix|, metadata)
    ensures var line := s[at..at + |prefix| + |metadata|]; StartsAt(line, 0, prefix) && line[|prefix|..] == metadata
  {
    var line := s[at..at + |prefix| + |metadata|];
    forall k | 0 <= k < |metadata| ensures line[|prefix| + k] == metadata[k] { CharAt(s, at + |prefix|, metadata, k); }
  }

  lemma SummaryIsRead(m: Markers, r: Record, s: string, summaryId: SummaryId)
    requires LaidOut(m, r, s) && summaryId(r.metadata) == Some(r.id) && MetadataStop(m, r) <= |s|
    ensures Summary(m, s[BodyStart(m, r)..MetadataStop(m, r)], r.id, summaryId) == Some(r.metadata)
  {
    MetadataLine(s, BodyStart(m, r), m.metadata, r.metadata);
  }

  lemma TextIsRead(a: string, s: string)
    requires Extends(s, a) && a != [] && a[|a| - 1] == '\n'
    ensures BlockText(s, 0, |a| - 1) == a
  {
    assert s[0..|a|] == a;
  }

  lemma FramedIsRead(m: Markers, s: string, id: string, length: nat, bodyStart: nat, lineEnd: nat, end: nat, p: Parsed, summaryId: SummaryId)
    requires bodyStart <= lineEnd <= end && end + length <= |s|
    requires Summary(m, s[bodyStart..lineEnd], id, summaryId) == Some(p.metadata) && BlockText(s, 0, end + length) == p.content
    ensures FramedAt(m, s, 0, id, length, bodyStart, Some((lineEnd, end)), summaryId) == Some(p)
  {
  }

  lemma LocatedIsRead(m: Markers, s: string, id: string, marker: string, bodyStart: nat, lineEnd: nat, end: nat, p: Parsed, summaryId: SummaryId)
    requires Locate(s, marker, bodyStart) == Some((lineEnd, end))
    requires FramedAt(m, s, 0, id, |marker|, bodyStart, Some((lineEnd, end)), summaryId) == Some(p)
    ensures ReadFrom(m, s, 0, id, marker, bodyStart, summaryId) == Some(p)
  {
  }

  lemma IsLocated(s: string, marker: string, bodyStart: nat, lineEnd: nat, end: nat)
    requires IndexOf(s, marker, bodyStart) == Some(end) && IndexOf(s, "\n", bodyStart) == Some(lineEnd) && lineEnd <= end
    ensures Locate(s, marker, bodyStart) == Some((lineEnd, end))
  {
  }

  lemma BlockIsFramed(m: Markers, s: string, id: string, marker: string, bodyStart: nat, lineEnd: nat, end: nat, p: Parsed, summaryId: SummaryId)
    requires IndexOf(s, marker, bodyStart) == Some(end) && IndexOf(s, "\n", bodyStart) == Some(lineEnd) && lineEnd <= end
    requires Summary(m, s[bodyStart..lineEnd], id, summaryId) == Some(p.metadata) && BlockText(s, 0, end + |marker|) == p.content
    ensures ReadFrom(m, s, 0, id, marker, bodyStart, summaryId) == Some(p)
  {
    IsLocated(s, marker, bodyStart, lineEnd, end);
    FramedIsRead(m, s, id, |marker|, bodyStart, lineEnd, end, p, summaryId);
    LocatedIsRead(m, s, id, marker, bodyStart, lineEnd, end, p, summaryId);
  }

  lemma LineIsLocated(m: Markers, r: Record, s: string, a: string, summaryId: SummaryId)
    requires MarkersOk(m) && a == Format(m, r) && '\n' !in r.metadata && summaryId(r.metadata) == Some(r.id) && Extends(s, a)
    ensures IndexOf(s, "\n", BodyStart(m, r)) == Some(MetadataStop(m, r)) && MetadataStop(m, r) <= |s|
    ensures Summary(m, s[BodyStart(m, r)..MetadataStop(m, r)], r.id, summaryId) == Some(r.metadata)
  {
    FormatIsLaidOut(m, r);
    LayoutExtends(m, r, s, a);
    MetadataLineEnds(m, r, s);
    SummaryIsRead(m, r, s, summaryId);
  }

  lemma BlockEnds(m: Markers, r: Record, a: string)
    requires a == Format(m, r)
    ensures |a| == MarkerStart(m, r) + |EndMarker(m, r.id)| + 1 && a[|a| - 1] == '\n'
  {
    BodyLayout(m, r);
    CharAt(a, |a| - 1, "\n", 0);
  }

  lemma BlockIsRead(m: Markers, r: Record, s: string, a: string, summaryId: SummaryId)
    requires MarkersOk(m) && Sound(m, r, summaryId) && a == Format(m, r) && Extends(s, a)
    ensures ReadFrom(m, s, 0, r.id, EndMarker(m, r.id), BodyStart(m, r), summaryId) == Some(Parsed(r.metadata, a))
  {
    EndIsFound(m, r, s);
    LineIsLocated(m, r, s, a, summaryId);
    BlockEnds(m, r, a);
    TextIsRead(a, s);
    BlockIsFramed(m, s, r.id, EndMarker(m, r.id), BodyStart(m, r), MetadataStop(m, r), MarkerStart(m, r), Parsed(r.metadata, a), summaryId);
  }

  // ---------------------------------------------------------------- nothing else is found inside a block

  /** A marker line at `i` ends by `stop`. */
  predicate EndsBy(find: Finder, s: string, i: nat, stop: nat) {
    find(s, i).Some? ==> i < find(s, i).value <= stop
  }

  /** A marker line at `i` ends by `stop` and has no block. */
  predicate Quiet(find: Finder, read: Reader, s: string, i: nat, stop: nat) {
    EndsBy(find, s, i, stop) && (find(s, i).Some? ==> read(s, i, find(s, i).value).None?)
  }

  lemma {:induction false} ScanSkips(s: string, from: nat, to: nat, find: Finder, read: Reader)
    requires from <= to <= |s| && forall i: nat | from <= i < to :: Quiet(find, read, s, i, to)
    ensures Scan(s, from, find, read) == Scan(s, to, find, read)
    decreases |s| - from
  {
    if from < to {
      assert Quiet(find, read, s, from, to);
      var end := find(s, from);
      ScanSkips(s, if end.None? then from + 1 else end.value, to, find, read);
    }
  }

  /** A marker line contains no line terminator. */
  lemma LineEndsBefore(m: Markers, s: string, i: nat, e: nat, stop: nat)
    requires MarkersOk(m) && BeginAt(m, s, i) == Some(e) && i <= stop < |s| && IsTerminator(s[stop])
    ensures e + |m.closing| <= stop
  {
    if i <= stop < i + |m.begin| { CharAt(s, i, m.begin, stop - i); }
    if e <= stop < e + |m.closing| { CharAt(s, e, m.closing, stop - e); }
  }

  lemma EndLineIsOneLine(m: Markers, r: Record, a: string, k: nat)
    requires MarkersOk(m) && IsId(r.id) && a == Format(m, r) && MarkerStart(m, r) < k < |a| - 1
    ensures !IsTerminator(a[k])
  {
    EndMarkerParts(m, r, a);
    var at := MarkerStart(m, r) + 1;
    if k < at + |m.end| { CharAt(a, at, m.end, k - at); }
    else if k < at + |m.end| + |r.id| { CharAt(a, at + |m.end|, r.id, k - at - |m.end|); }
    else { CharAt(a, at + |m.end| + |r.id|, m.closing, k - at - |m.end| - |r.id|); }
  }

  lemma EndMarkerParts(m: Markers, r: Record, a: string)
    requires a == Format(m, r)
    ensures var at := MarkerStart(m, r);
      && StartsAt(a, at, "\n") && StartsAt(a, at + 1, m.end) && StartsAt(a, at + 1 + |m.end|, r.id)
      && StartsAt(a, at + 1 + |m.end| + |r.id|, m.closing) && |a| == at + 1 + |m.end| + |r.id| + |m.closing| + 1
  {
    BodyLayout(m, r);
    PartsOfMarker(m, r.id);
    var at, marker := MarkerStart(m, r), EndMarker(m, r.id);
    PieceOf(a, at, marker, 0, "\n");
    PieceOf(a, at, marker, 1, m.end);
    PieceOf(a, at, marker, 1 + |m.end|, r.id);
    PieceOf(a, at, marker, 1 + |m.end| + |r.id|, m.closing);
  }

  lemma ConcatFour(a: string, b: string, c: string, d: string)
    ensures Concat([a, b, c, d]) == a + (b + (c + d))
  {
    assert [d][1..] == [] && Concat([d]) == d;
    assert [c, d][1..] == [d] && Concat([c, d]) == c + d;
    assert [b, c, d][1..] == [c, d] && Concat([b, c, d]) == b + (c + d);
    assert [a, b, c, d][1..] == [b, c, d];
  }

  lemma PartsOfMarker(m: Markers, id: string)
    ensures var marker := EndMarker(m, id);
      && StartsAt(marker, 0, "\n") && StartsAt(marker, 1, m.end) && StartsAt(marker, 1 + |m.end|, id)
      && StartsAt(marker, 1 + |m.end| + |id|, m.closing) && |marker| == 1 + |m.end| + |id| + |m.closing|
  {
    var marker := EndMarker(m, id);
    ConcatFour("\n", m.end, id, m.closing);
    TwoPieces(marker, 0, "\n", m.end, id + m.closing);
    NextPiece(marker, 1 + |m.end|, id, m.closing);
  }

  lemma PieceOf(a: string, at: nat, t: string, k: nat, piece: string)
    requires StartsAt(a, at, t) && StartsAt(t, k, piece)
    ensures StartsAt(a, at + k, piece)
  {
    forall j | 0 <= j < |piece| ensures a[at + k + j] == piece[j] { assert t[k + j] == piece[j] && a[at + (k + j)] == t[k + j]; }
  }

  lemma NotBothMarkers(m: Markers, s: string, a: string, i: nat)
    requires MarkersOk(m) && Extends(s, a) && StartsAt(a, i, m.end)
    ensures !StartsAt(s, i, m.begin)
  {
    var k :| 0 <= k < |m.begin| && k < |m.end| && m.begin[k] != m.end[k];
    CharAt(a, i, m.end, k);
    assert s[i + k] == a[i + k] != m.begin[k];
  }

  /** A marker line inside a block lies before its end line. */
  lemma MarkerLineIsInBody(m: Markers, r: Record, s: string, a: string, i: nat, e: nat)
    requires MarkersOk(m) && IsId(r.id) && a == Format(m, r) && Extends(s, a) && 0 < i < |a| && BeginAt(m, s, i) == Some(e)
    ensures e + |m.closing| <= MarkerStart(m, r) < |a| - 1
  {
    var at := MarkerStart(m, r);
    EndMarkerParts(m, r, a);
    CharAt(a, at, "\n", 0);
    if i > at + 1 {
      EndLineIsOneLine(m, r, a, i - 1);
      assert false;
    } else if i == at + 1 {
      NotBothMarkers(m, s, a, i);
    } else {
      LineEndsBefore(m, s, i, e, at);
    }
  }

  /** Two texts that agree around a marker line have it both. */
  lemma MarkerWithin(m: Markers, x: string, y: string, i: nat, e: nat)
    requires MarkersOk(m) && 0 < i && BeginAt(m, x, i) == Some(e) && e + |m.closing| < |x| && e + |m.closing| < |y|
    requires forall k | 0 <= k <= e + |m.closing| :: x[k] == y[k]
    ensures BeginAt(m, y, i) == Some(e)
  {
    forall k | 0 <= k < |m.begin| ensures y[i + k] == m.begin[k] { CharAt(x, i, m.begin, k); }
    forall k | 0 <= k < |m.closing| ensures y[e + k] == m.closing[k] { CharAt(x, e, m.closing, k); }
    assert LineStart(y, i) by { assert x[i - 1] == y[i - 1]; }
    CharAt(y, e, m.closing, 0);
    IdRun(y, i + |m.begin|, e);
    assert x[e + |m.closing|] == y[e + |m.closing|];
  }

  lemma {:induction false} NewlineWithin(s: string, a: string, from: nat)
    requires Extends(s, a) && a != [] && a[|a| - 1] == '\n' && from < |a|
    ensures IndexOf(s, "\n", from) == IndexOf(a, "\n", from) && IndexOf(a, "\n", from).Some?
    decreases |a| - from
  {
    StartsExtend(s, a, from, "\n");
    if a[from] == '\n' { assert StartsAt(a, from, "\n"); } else { NewlineWithin(s, a, from + 1); }
  }

  lemma NamedWithin(m: Markers, s: string, a: string, id: string, bodyStart: nat, summaryId: SummaryId)
    requires Extends(s, a) && a != [] && a[|a| - 1] == '\n' && bodyStart < |a|
    ensures NamedBelow(m, s, id, bodyStart, summaryId) <==> NamedBelow(m, a, id, bodyStart, summaryId)
  {
    NewlineWithin(s, a, bodyStart);
    var lineEnd := IndexOf(a, "\n", bodyStart).value;
    assert s[bodyStart..lineEnd] == a[bodyStart..lineEnd];
  }

  lemma BlockIsNamed(m: Markers, s: string, i: nat, id: string, marker: string, bodyStart: nat, summaryId: SummaryId)
    requires i <= bodyStart && ReadFrom(m, s, i, id, marker, bodyStart, summaryId).Some?
    ensures NamedBelow(m, s, id, bodyStart, summaryId)
  {
  }

  lemma ReaderIsNamed(m: Markers, s: string, i: nat, e: nat, summaryId: SummaryId)
    requires i + |m.begin| <= e && e + |m.closing| <= |s| && BlockReader(m, ReadBody(m, summaryId))(s, i, e + |m.closing|).Some?
    ensures NamedBelow(m, s, s[i + |m.begin|..e], e + |m.closing| + 1, summaryId)
  {
    var id := s[i + |m.begin|..e];
    assert ReadBlock(m, s, i, e, ReadBody(m, summaryId)).Some?;
    BlockIsNamed(m, s, i, id, EndMarker(m, id), e + |m.closing| + 1, summaryId);
  }

  lemma UnnamedIsNotRead(m: Markers, s: string, a: string, i: nat, e: nat, summaryId: SummaryId)
    requires Extends(s, a) && a != [] && a[|a| - 1] == '\n' && i + |m.begin| <= e && e + |m.closing| + 1 < |a|
    requires !NamedBelow(m, a, a[i + |m.begin|..e], e + |m.closing| + 1, summaryId)
    ensures BlockReader(m, ReadBody(m, summaryId))(s, i, e + |m.closing|).None?
  {
    SliceWithin(s, a, i + |m.begin|, e);
    NamedWithin(m, s, a, a[i + |m.begin|..e], e + |m.closing| + 1, summaryId);
    if BlockReader(m, ReadBody(m, summaryId))(s, i, e + |m.closing|).Some? { ReaderIsNamed(m, s, i, e, summaryId); }
  }

  lemma SliceWithin(s: string, a: string, i: nat, j: nat)
    requires Extends(s, a) && i <= j <= |a|
    ensures s[i..j] == a[i..j]
  {
  }

  /** A marker line inside the block is one in the whole text and in the block alone. */
  lemma LineIsShared(m: Markers, r: Record, s: string, a: string, i: nat, e: nat)
    requires MarkersOk(m) && IsId(r.id) && a == Format(m, r) && Extends(s, a) && 0 < i < |a|
    requires BeginAt(m, s, i) == Some(e) || BeginAt(m, a, i) == Some(e)
    ensures BeginAt(m, s, i) == Some(e) && BeginAt(m, a, i) == Some(e)
    ensures e + |m.closing| + 1 < |a| && a[|a| - 1] == '\n'
  {
    BlockEnds(m, r, a);
    if BeginAt(m, s, i) == Some(e) {
      MarkerLineIsInBody(m, r, s, a, i, e);
      MarkerWithin(m, s, a, i, e);
    } else {
      MarkerLineIsInBody(m, r, a, a, i, e);
      MarkerWithin(m, a, s, i, e);
    }
  }

  lemma OpensIffNamed(m: Markers, a: string, i: nat, e: nat, id: string, summaryId: SummaryId)
    requires BeginAt(m, a, i) == Some(e) && id == a[i + |m.begin|..e]
    ensures Opens(m, a, i, summaryId) <==> NamedBelow(m, a, id, e + |m.closing| + 1, summaryId)
  {
  }

  lemma LineIsQuiet(m: Markers, r: Record, s: string, a: string, i: nat, e: nat, summaryId: SummaryId)
    requires MarkersOk(m) && IsId(r.id) && a == Format(m, r) && Extends(s, a) && 0 < i < |a| && !Opens(m, a, i, summaryId)
    requires BeginAt(m, s, i) == Some(e)
    ensures e + |m.closing| <= |a| && BlockReader(m, ReadBody(m, summaryId))(s, i, e + |m.closing|).None?
  {
    LineIsShared(m, r, s, a, i, e);
    OpensIffNamed(m, a, i, e, a[i + |m.begin|..e], summaryId);
    UnnamedIsNotRead(m, s, a, i, e, summaryId);
  }

  // ---------------------------------------------------------------- theorems

  function Reading(m: Markers, s: string, from: nat, summaryId: SummaryId): seq<Parsed> {
    Scan(s, from, LineFinder(m), BlockReader(m, ReadBody(m, summaryId)))
  }

  lemma MarkerIsFoundFirst(m: Markers, r: Record, s: string)
    requires MarkersOk(m) && IsId(r.id) && Extends(s, Format(m, r))
    ensures BeginAt(m, s, 0) == Some(IdStop(m, r)) && LineFinder(m)(s, 0) == Some(IdStop(m, r) + |m.closing|)
    ensures BodyStart(m, r) <= |s| && s[|m.begin|..IdStop(m, r)] == r.id
  {
    FormatIsLaidOut(m, r);
    LayoutExtends(m, r, s, Format(m, r));
    MarkerIsFound(m, r, s);
  }

  lemma ReaderFindsBlock(m: Markers, r: Record, s: string, body: BodyReader, parsed: Option<Parsed>)
    requires BodyStart(m, r) <= |s| && s[|m.begin|..IdStop(m, r)] == r.id
    requires body(s, 0, r.id, EndMarker(m, r.id), BodyStart(m, r)) == parsed
    ensures BlockReader(m, body)(s, 0, IdStop(m, r) + |m.closing|) == parsed
  {
    assert ReadBlock(m, s, 0, IdStop(m, r), body) == parsed;
  }

  lemma ScanFirst(s: string, end: nat, n: nat, find: Finder, read: Reader, parsed: Parsed)
    requires s != [] && find(s, 0) == Some(end) && end > 0 && read(s, 0, end) == Some(parsed)
    requires Scan(s, end, find, read) == Scan(s, n, find, read)
    ensures Scan(s, 0, find, read) == [parsed] + Scan(s, n, find, read)
  {
  }

  lemma NothingAt(m: Markers, r: Record, s: string, a: string, i: nat, summaryId: SummaryId)
    requires MarkersOk(m) && IsId(r.id) && a == Format(m, r) && Extends(s, a) && 0 < i < |a| && !Opens(m, a, i, summaryId)
    ensures Quiet(LineFinder(m), BlockReader(m, ReadBody(m, summaryId)), s, i, |a|)
  {
    var e := BeginAt(m, s, i);
    if e.Some? { LineIsQuiet(m, r, s, a, i, e.value, summaryId); }
  }

  lemma NothingInside(m: Markers, r: Record, s: string, a: string, summaryId: SummaryId)
    requires MarkersOk(m) && Sound(m, r, summaryId) && a == Format(m, r) && Extends(s, a)
    ensures IdStop(m, r) + |m.closing| <= |a|
    ensures forall i: nat | IdStop(m, r) + |m.closing| <= i < |a| ::
      Quiet(LineFinder(m), BlockReader(m, ReadBody(m, summaryId)), s, i, |a|)
  {
    BlockEnds(m, r, a);
    forall i: nat | IdStop(m, r) + |m.closing| <= i < |a| ensures Quiet(LineFinder(m), BlockReader(m, ReadBody(m, summaryId)), s, i, |a|) {
      NothingAt(m, r, s, a, i, summaryId);
    }
  }

  lemma ScanBlock(s: string, end: nat, n: nat, find: Finder, read: Reader, parsed: Parsed)
    requires find(s, 0) == Some(end) && 0 < end <= n <= |s| && read(s, 0, end) == Some(parsed)
    requires forall i: nat | end <= i < n :: Quiet(find, read, s, i, n)
    ensures Scan(s, 0, find, read) == [parsed] + Scan(s, n, find, read)
  {
    ScanSkips(s, end, n, find, read);
    ScanFirst(s, end, n, find, read, parsed);
  }

  function AsParsed(m: Markers, records: seq<Record>): seq<Parsed> {
    if records == [] then [] else [Parsed(records[0].metadata, Format(m, records[0]))] + AsParsed(m, records[1..])
  }

  lemma BlockOf(m: Markers, r: Record, s: string, summaryId: SummaryId)
    requires MarkersOk(m) && Sound(m, r, summaryId) && Extends(s, Format(m, r))
    ensures BlockReader(m, ReadBody(m, summaryId))(s, 0, IdStop(m, r) + |m.closing|) == Some(Parsed(r.metadata, Format(m, r)))
  {
    MarkerIsFoundFirst(m, r, s);
    BlockIsRead(m, r, s, Format(m, r), summaryId);
    ReaderFindsBlock(m, r, s, ReadBody(m, summaryId), Some(Parsed(r.metadata, Format(m, r))));
  }

  lemma FirstBlockThenRest(m: Markers, r: Record, s: string, a: string, summaryId: SummaryId)
    requires MarkersOk(m) && Sound(m, r, summaryId) && a == Format(m, r) && Extends(s, a) && s != []
    ensures Parse(m, s, summaryId) == [Parsed(r.metadata, a)] + Reading(m, s, |a|, summaryId)
  {
    var end := IdStop(m, r) + |m.closing|;
    MarkerIsFoundFirst(m, r, s);
    assert end > 0;
    BlockOf(m, r, s, summaryId);
    NothingInside(m, r, s, a, summaryId);
    ScanBlock(s, end, |a|, LineFinder(m), BlockReader(m, ReadBody(m, summaryId)), Parsed(r.metadata, a));
  }

  lemma AppendExtends(a: string, rest: string)
    requires a != [] && a[|a| - 1] == '\n'
    ensures Extends(a + rest, a) && BehindNewline(a + rest, |a|, rest)
  {
  }

  /** The first block is read, then the text behind it as if it stood alone. */
  lemma FirstBlock(m: Markers, r: Record, a: string, rest: string, summaryId: SummaryId)
    requires MarkersOk(m) && Sound(m, r, summaryId) && a == Format(m, r)
    ensures Parse(m, a + rest, summaryId) == [Parsed(r.metadata, a)] + Parse(m, rest, summaryId)
  {
    BlockEnds(m, r, a);
    AppendExtends(a, rest);
    FirstBlockThenRest(m, r, a + rest, a, summaryId);
    ParseBehindNewline(m, a + rest, |a|, rest, summaryId);
  }

  /** The text of a record: marker line, metadata line, body, and the end marker on a line of its own. */
  lemma FormattedText(m: Markers, r: Record)
    ensures Format(m, r) == m.begin + (r.id + (m.closing + ("\n" + (m.metadata + (r.metadata + ("\n" + (r.body + EndLine(m, r.id))))))))
  {
    ConcatFour("\n", m.end, r.id, m.closing);
    assert ("\n" + (m.end + (r.id + m.closing))) + "\n" == EndLine(m, r.id) by {
      assert (m.end + (r.id + m.closing)) + "\n" == m.end + (r.id + (m.closing + "\n"));
    }
  }

  function EndLine(m: Markers, id: string): string {
    "\n" + (m.end + (id + (m.closing + "\n")))
  }

  /** What was written is read back, record by record, with the exact text of each block. */
  lemma {:induction false} WrittenLogIsReadBack(m: Markers, records: seq<Record>, summaryId: SummaryId)
    requires MarkersOk(m) && forall i | 0 <= i < |records| :: Sound(m, records[i], summaryId)
    ensures Parse(m, FormatAll(m, records), summaryId) == AsParsed(m, records)
  {
    if records != [] {
      WrittenLogIsReadBack(m, records[1..], summaryId);
      FirstBlock(m, records[0], Format(m, records[0]), FormatAll(m, records[1..]), summaryId);
    }
  }

  lemma GhcpMarkersOk()
    ensures MarkersOk(Ghcp)
  {
    assert OnOneLine(Banner) && OnOneLine("BEGIN ") && OnOneLine("END ");
    var k := |Banner|;
    assert Ghcp.begin[k] == 'B' && Ghcp.end[k] == 'E';
  }

  // ---------------------------------------------------------------- the condition is exact

  lemma {:induction false} IndexOfFinds(s: string, t: string, from: nat, q: nat)
    requires from <= q && StartsAt(s, q, t)
    ensures IndexOf(s, t, from).Some? && IndexOf(s, t, from).value <= q && StartsAt(s, IndexOf(s, t, from).value, t)
    decreases q - from
  {
    if from < q && !StartsAt(s, from, t) { IndexOfFinds(s, t, from + 1, q); }
  }

  /** A block is read wherever an end marker follows its metadata line; the first one ends it. */
  lemma NamedIsRead(m: Markers, s: string, i: nat, id: string, bodyStart: nat, q: nat, summaryId: SummaryId)
    requires i <= bodyStart <= q && StartsAt(s, q, EndMarker(m, id)) && NamedBelow(m, s, id, bodyStart, summaryId)
    ensures var p := ReadFrom(m, s, i, id, EndMarker(m, id), bodyStart, summaryId);
      p.Some? && |p.value.content| <= q + |EndMarker(m, id)| + 1 - i
  {
    var marker := EndMarker(m, id);
    IndexOfFinds(s, marker, bodyStart, q);
    var end := IndexOf(s, marker, bodyStart).value;
    PartsOfMarker(m, id);
    PieceOf(s, end, marker, 0, "\n");
    IndexOfFinds(s, "\n", bodyStart, end);
    var lineEnd := IndexOf(s, "\n", bodyStart).value;
    IsLocated(s, marker, bodyStart, lineEnd, end);
    BlockTextLength(s, i, end + |marker|);
  }

  lemma BlockTextLength(s: string, i: nat, blockEnd: nat)
    requires i <= blockEnd <= |s|
    ensures |BlockText(s, i, blockEnd)| <= blockEnd + 1 - i
  {
  }

  /** What the scan makes of the record at the start of `s`, if an end marker of it stands at `q`. */
  lemma FirstIsSome(m: Markers, r: Record, s: string, q: nat, summaryId: SummaryId)
    requires MarkersOk(m) && WellFormed(r, summaryId) && Extends(s, Format(m, r))
    requires BodyStart(m, r) <= q && StartsAt(s, q, EndMarker(m, r.id))
    ensures exists p: Parsed ::
      |p.content| <= q + |EndMarker(m, r.id)| + 1 && Parse(m, s, summaryId) == [p] + Reading(m, s, IdStop(m, r) + |m.closing|, summaryId)
  {
    var end, marker := IdStop(m, r) + |m.closing|, EndMarker(m, r.id);
    LineIsLocated(m, r, s, Format(m, r), summaryId);
    NamedIsRead(m, s, 0, r.id, BodyStart(m, r), q, summaryId);
    var p := ReadFrom(m, s, 0, r.id, marker, BodyStart(m, r), summaryId).value;
    MarkerIsFoundFirst(m, r, s);
    ReaderFindsBlock(m, r, s, ReadBody(m, summaryId), Some(p));
    ScanFirst(s, end, end, LineFinder(m), BlockReader(m, ReadBody(m, summaryId)), p);
  }

  lemma {:induction false} ScanGrows(s: string, from: nat, to: nat, find: Finder, read: Reader)
    requires from <= to <= |s| && forall i: nat | from <= i < to :: EndsBy(find, s, i, to)
    ensures |Scan(s, from, find, read)| >= |Scan(s, to, find, read)|
    decreases |s| - from
  {
    if from < to {
      assert EndsBy(find, s, from, to);
      var end := find(s, from);
      ScanGrows(s, if end.None? then from + 1 else end.value, to, find, read);
    }
  }

  lemma ScanFinds(s: string, from: nat, at: nat, to: nat, find: Finder, read: Reader)
    requires from <= at < to <= |s| && find(s, at).Some? && read(s, at, find(s, at).value).Some?
    requires (forall i: nat | from <= i < at :: EndsBy(find, s, i, at)) && forall i: nat | at <= i < to :: EndsBy(find, s, i, to)
    ensures |Scan(s, from, find, read)| >= 1 + |Scan(s, to, find, read)|
  {
    assert EndsBy(find, s, at, to);
    ScanGrows(s, from, at, find, read);
    ScanGrows(s, find(s, at).value, to, find, read);
  }

  /** The record comes out first and whole, then what the text behind it holds. */
  predicate ReadFirst(m: Markers, r: Record, rest: string, summaryId: SummaryId) {
    Parse(m, Format(m, r) + rest, summaryId) == [Parsed(r.metadata, Format(m, r))] + Parse(m, rest, summaryId)
  }

  /** An end marker in the body cuts the block short. */
  lemma EarlyEndCuts(m: Markers, r: Record, q: nat, summaryId: SummaryId)
    requires MarkersOk(m) && WellFormed(r, summaryId) && BodyStart(m, r) <= q < MarkerStart(m, r)
    requires StartsAt(Format(m, r), q, EndMarker(m, r.id))
    ensures !ReadFirst(m, r, [], summaryId)
  {
    var a := Format(m, r);
    BlockEnds(m, r, a);
    FirstIsSome(m, r, a, q, summaryId);
    var p: Parsed :| |p.content| <= q + |EndMarker(m, r.id)| + 1
      && Parse(m, a, summaryId) == [p] + Reading(m, a, IdStop(m, r) + |m.closing|, summaryId);
    assert a + [] == a && Parse(m, a, summaryId)[0] == p;
  }

  lemma LinesEndBefore(m: Markers, s: string, i: nat, stop: nat)
    requires MarkersOk(m) && i < stop <= |s| && IsTerminator(s[stop - 1])
    ensures EndsBy(LineFinder(m), s, i, stop)
  {
    var e := BeginAt(m, s, i);
    if e.Some? { LineEndsBefore(m, s, i, e.value, stop - 1); }
  }

  lemma ReaderReads(m: Markers, s: string, i: nat, e: nat, id: string, summaryId: SummaryId)
    requires i + |m.begin| <= e && e + |m.closing| <= |s| && s[i + |m.begin|..e] == id
    requires ReadFrom(m, s, i, id, EndMarker(m, id), e + |m.closing| + 1, summaryId).Some?
    ensures BlockReader(m, ReadBody(m, summaryId))(s, i, e + |m.closing|).Some?
  {
    assert ReadBlock(m, s, i, e, ReadBody(m, summaryId)).Some?;
  }

  /** A marker line with a summary below is read as a record once some later text ends it. */
  lemma OpenIsRead(m: Markers, s: string, a: string, i: nat, e: nat, id: string, summaryId: SummaryId)
    requires MarkersOk(m) && a != [] && a[|a| - 1] == '\n' && Extends(s, a) && BeginAt(m, a, i) == Some(e) && e + |m.closing| + 1 < |a|
    requires id == a[i + |m.begin|..e] && NamedBelow(m, a, id, e + |m.closing| + 1, summaryId) && StartsAt(s, |a|, EndMarker(m, id))
    ensures BlockReader(m, ReadBody(m, summaryId))(s, i, e + |m.closing|).Some?
  {
    var bodyStart := e + |m.closing| + 1;
    NamedWithin(m, s, a, id, bodyStart, summaryId);
    NamedIsRead(m, s, i, id, bodyStart, |a|, summaryId);
    SliceWithin(s, a, i + |m.begin|, e);
    ReaderReads(m, s, i, e, id, summaryId);
  }

  /** Then at least one record comes out of the block behind its own marker line. */
  lemma OpenIsScanned(m: Markers, r: Record, s: string, a: string, i: nat, read: Reader)
    requires MarkersOk(m) && IsId(r.id) && a == Format(m, r) && a != [] && a[|a| - 1] == '\n' && Extends(s, a)
    requires 0 < i < |a| && BeginAt(m, s, i).Some? && read(s, i, BeginAt(m, s, i).value + |m.closing|).Some?
    ensures |Scan(s, IdStop(m, r) + |m.closing|, LineFinder(m), read)| >= 1 + |Scan(s, |a|, LineFinder(m), read)|
  {
    MarkerIsFoundFirst(m, r, s);
    LineEndsBefore(m, s, 0, IdStop(m, r), i - 1);
    AllEndBefore(m, s, i);
    AllEndBefore(m, s, |a|);
    ScanFinds(s, IdStop(m, r) + |m.closing|, i, |a|, LineFinder(m), read);
  }

  lemma AllEndBefore(m: Markers, s: string, stop: nat)
    requires MarkersOk(m) && 0 < stop <= |s| && IsTerminator(s[stop - 1])
    ensures forall j: nat | j < stop :: EndsBy(LineFinder(m), s, j, stop)
  {
    forall j: nat | j < stop ensures EndsBy(LineFinder(m), s, j, stop) { LinesEndBefore(m, s, j, stop); }
  }

  lemma OpenIsCounted(m: Markers, r: Record, s: string, a: string, i: nat, e: nat, id: string, summaryId: SummaryId)
    requires MarkersOk(m) && IsId(r.id) && a == Format(m, r) && 0 < i < |a| && BeginAt(m, a, i) == Some(e)
    requires id == a[i + |m.begin|..e] && NamedBelow(m, a, id, e + |m.closing| + 1, summaryId)
    requires Extends(s, a) && StartsAt(s, |a|, EndMarker(m, id))
    ensures |Reading(m, s, IdStop(m, r) + |m.closing|, summaryId)| >= 1 + |Reading(m, s, |a|, summaryId)|
  {
    LineIsShared(m, r, s, a, i, e);
    OpenIsRead(m, s, a, i, e, id, summaryId);
    OpenIsScanned(m, r, s, a, i, BlockReader(m, ReadBody(m, summaryId)));
  }

  /** So one record too many is read. */
  lemma OpenAddsRecord(m: Markers, r: Record, a: string, i: nat, e: nat, rest: string, summaryId: SummaryId)
    requires MarkersOk(m) && WellFormed(r, summaryId) && a == Format(m, r) && 0 < i < |a|
    requires Opens(m, a, i, summaryId) && BeginAt(m, a, i) == Some(e) && rest == EndMarker(m, a[i + |m.begin|..e])
    ensures !ReadFirst(m, r, rest, summaryId)
  {
    BlockEnds(m, r, a);
    AppendExtends(a, rest);
    OpensIffNamed(m, a, i, e, a[i + |m.begin|..e], summaryId);
    OpenIsCounted(m, r, a + rest, a, i, e, a[i + |m.begin|..e], summaryId);
    ParseBehindNewline(m, a + rest, |a|, rest, summaryId);
    EndStands(m, r, a + rest, a);
    FirstIsSome(m, r, a + rest, MarkerStart(m, r), summaryId);
  }

  lemma EndStands(m: Markers, r: Record, s: string, a: string)
    requires a == Format(m, r) && Extends(s, a)
    ensures StartsAt(s, MarkerStart(m, r), EndMarker(m, r.id))
  {
    BodyLayout(m, r);
    StartsExtend(s, a, MarkerStart(m, r), EndMarker(m, r.id));
  }

  /** A record is read back whole in front of every text exactly when nothing inside breaks its block. */
  lemma ReadBackIff(m: Markers, r: Record, summaryId: SummaryId)
    requires MarkersOk(m) && WellFormed(r, summaryId)
    ensures (forall rest: string :: ReadFirst(m, r, rest, summaryId)) <==> Unbroken(m, r, summaryId)
  {
    if Unbroken(m, r, summaryId) {
      forall rest: string ensures ReadFirst(m, r, rest, summaryId) { FirstBlock(m, r, Format(m, r), rest, summaryId); }
    } else if EndsOnce(m, r) {
      var i :| 0 < i < |Format(m, r)| && Opens(m, Format(m, r), i, summaryId);
      var e := BeginAt(m, Format(m, r), i).value;
      OpenAddsRecord(m, r, Format(m, r), i, e, EndMarker(m, Format(m, r)[i + |m.begin|..e]), summaryId);
    } else {
      var q :| BodyStart(m, r) <= q < MarkerStart(m, r) && StartsAt(Format(m, r), q, EndMarker(m, r.id));
      EarlyEndCuts(m, r, q, summaryId);
    }
  }

  /** A record whose body quotes another one on lines of its own is not read back as written. */
  lemma QuotedRecordBreaks(m: Markers, r: Record, quoted: Record, before: string, after: string, summaryId: SummaryId)
    requires MarkersOk(m) && WellFormed(r, summaryId) && WellFormed(quoted, summaryId)
    requires r.body == before + ("\n" + (Format(m, quoted) + after))
    ensures !Unbroken(m, r, summaryId)
  {
    var a, n := Format(m, r), MetadataStop(m, r) + 1;
    var end, inner := EndMarker(m, r.id) + "\n", Format(m, quoted);
    MetadataLayout(m, r);
    Regroup(before, "\n", inner, after, end);
    TwoPieces(a, n, before, "\n", inner + (after + end));
    CharAt(a, n + |before|, "\n", 0);
    TailOfAppend(inner, after + end);
    BlockEnds(m, quoted, inner);
    AppendExtends(inner, after + end);
    QuotedOpens(m, quoted, a, n + |before| + 1, inner + (after + end), summaryId);
  }

  lemma Regroup(u: string, v: string, x: string, y: string, z: string)
    ensures (u + (v + (x + y))) + z == u + (v + (x + (y + z)))
  {
    assert (x + y) + z == x + (y + z);
    assert (v + (x + y)) + z == v + ((x + y) + z);
  }

  lemma NamedShift(m: Markers, s: string, n: nat, b: string, id: string, bodyStart: nat, summaryId: SummaryId)
    requires Tail(s, n, b) && bodyStart <= |b|
    ensures NamedBelow(m, s, id, n + bodyStart, summaryId) <==> NamedBelow(m, b, id, bodyStart, summaryId)
  {
    IndexOfShift(s, n, b, "\n", bodyStart);
    var lineEnd := IndexOf(b, "\n", bodyStart);
    if lineEnd.Some? { SliceShift(s, n, b, bodyStart, lineEnd.value); }
  }

  lemma BlockIsNamedBelow(m: Markers, r: Record, s: string, bodyStart: nat, summaryId: SummaryId)
    requires MarkersOk(m) && WellFormed(r, summaryId) && Extends(s, Format(m, r)) && bodyStart == BodyStart(m, r)
    ensures NamedBelow(m, s, r.id, bodyStart, summaryId)
  {
    LineIsLocated(m, r, s, Format(m, r), summaryId);
  }

  lemma QuotedOpens(m: Markers, quoted: Record, a: string, n: nat, b: string, summaryId: SummaryId)
    requires MarkersOk(m) && WellFormed(quoted, summaryId) && BehindNewline(a, n, b) && Extends(b, Format(m, quoted))
    ensures n < |a| && Opens(m, a, n, summaryId)
  {
    var e := IdStop(m, quoted);
    MarkerIsFoundFirst(m, quoted, b);
    BlockIsNamedBelow(m, quoted, b, e + |m.closing| + 1, summaryId);
    OpensShift(m, a, n, b, e, quoted.id, summaryId);
  }

  lemma NamedOpens(m: Markers, a: string, n: nat, e: nat, id: string, bodyStart: nat, summaryId: SummaryId)
    requires BeginAt(m, a, n) == Some(e) && id == a[n + |m.begin|..e] && bodyStart == e + |m.closing| + 1
    requires NamedBelow(m, a, id, bodyStart, summaryId)
    ensures Opens(m, a, n, summaryId)
  {
  }

  lemma OpensShift(m: Markers, a: string, n: nat, b: string, e: nat, id: string, summaryId: SummaryId)
    requires BehindNewline(a, n, b) && BeginAt(m, b, 0) == Some(e) && id == b[|m.begin|..e] && e + |m.closing| + 1 <= |b|
    requires NamedBelow(m, b, id, e + |m.closing| + 1, summaryId)
    ensures Opens(m, a, n, summaryId)
  {
    var bodyStart := e + |m.closing| + 1;
    BeginShift(m, a, n, b, 0);
    NamedShift(m, a, n, b, id, bodyStart, summaryId);
    SliceShift(a, n, b, |m.begin|, e);
    NamedOpens(m, a, n, n + e, id, n + bodyStart, summaryId);
  }
}
