/** The table of accounts and tokens read from an import file. */
module TokenImport {
  import opened Common
  import opened CsvText
  import opened JsText

  datatype ImportRow = ImportRow(line: nat, name: string, token: string)

  datatype Reason = UnclosedQuote | WrongHeader | HeaderMissing | WrongColumns | NameMissing | TokenMissing | DuplicateName

  datatype ParseError = ParseError(line: nat, name: string, reason: Reason)

  datatype LineResult = HeaderFound | Row(row: ImportRow) | Rejected(error: ParseError)

  datatype Verdict = Verdict(parsed: bool, result: LineResult)

  /** How names are compared; the program lower-cases them. */
  type Key = string -> string

  predicate IsBlank(line: string) {
    Trim(line) == []
  }

  predicate IsHeader(values: seq<string>) {
    |values| == 2 && Trim(values[0]) == "name" && Trim(values[1]) == "copilotOauthToken"
  }

  // ---------------------------------------------------------------- the reference: what the lines say

  /** The number of the first line that is neither blank nor malformed, which has to be the header; 0 without one. */
  function HeaderLine(lines: seq<string>): (n: nat)
    ensures n <= |lines| && (n > 0 ==> Parse(lines[n - 1]).Some?)
  {
    if lines == [] then 0
    else
      var before := HeaderLine(lines[..|lines| - 1]);
      if before > 0 then before
      else if Trim(lines[|lines| - 1]) == "" || Parse(lines[|lines| - 1]).None? then 0 else |lines|
  }

  predicate HasHeader(lines: seq<string>) {
    HeaderLine(lines) > 0 && var values := Parse(lines[HeaderLine(lines) - 1]).value;
      |values| == 2 && Trim(values[0]) == "name" && Trim(values[1]) == "copilotOauthToken"
  }

  /** A first line that is not the header ends the import. */
  predicate IsRefused(lines: seq<string>) {
    HeaderLine(lines) > 0 && !HasHeader(lines)
  }

  /** The numbers of the lines to be reported as a row or an error: the filled ones, except the header and what follows a wrong one. */
  function Due(lines: seq<string>): set<nat> {
    if lines == [] then {}
    else
      var front, last := lines[..|lines| - 1], lines[|lines| - 1];
      Due(front) + if Trim(last) == "" || IsRefused(front) || (HeaderLine(front) == 0 && HasHeader(lines)) then {} else {|lines|}
  }

  /** The row stands in the file, in a line of two columns, both filled. */
  predicate IsFromFile(lines: seq<string>, row: ImportRow) {
    && 1 <= row.line <= |lines| && row.name != [] && row.token != []
    && var values := Parse(lines[row.line - 1]);
    && values.Some? && |values.value| == 2 && row.name == Trim(values.value[0]) && row.token == Trim(values.value[1])
  }

  predicate DistinctNames(rows: seq<ImportRow>, key: Key) {
    forall i, j | 0 <= i < j < |rows| :: key(rows[i].name) != key(rows[j].name)
  }

  predicate InOrder(rows: seq<ImportRow>) {
    forall i, j | 0 <= i < j < |rows| :: rows[i].line < rows[j].line
  }

  predicate ErrorsInOrder(errors: seq<ParseError>) {
    forall i, j | 0 <= i < j < |errors| :: errors[i].line < errors[j].line
  }

  function RowLines(rows: seq<ImportRow>): set<nat> {
    set i | 0 <= i < |rows| :: rows[i].line
  }

  function ErrorLines(errors: seq<ParseError>): set<nat> {
    set i | 0 <= i < |errors| :: errors[i].line
  }

  /** Rows and errors, each in the order of the file, share out exactly these lines. */
  ghost predicate Reports(rows: seq<ImportRow>, errors: seq<ParseError>, due: set<nat>) {
    && InOrder(rows) && ErrorsInOrder(errors)
    && RowLines(rows) !! ErrorLines(errors) && RowLines(rows) + ErrorLines(errors) == due
  }

  /** What is wrong with the line an error names; a name that comes twice is a fault of the later line. */
  predicate ErrorFits(front: seq<string>, lines: seq<string>, rows: seq<ImportRow>, error: ParseError, key: Key) {
    && 1 <= error.line <= |lines|
    && var values := Parse(lines[error.line - 1]);
      if values.None? then error.reason == UnclosedQuote && error.name == []
      else
        && error.name == (if values.value == [] then [] else Trim(values.value[0]))
        && match error.reason
           case WrongHeader => error.line == HeaderLine(front) && !HasHeader(front)
           case WrongColumns => |values.value| != 2
           case NameMissing => |values.value| == 2 && error.name == []
           case TokenMissing => |values.value| == 2 && error.name != [] && Trim(values.value[1]) == []
           case DuplicateName =>
             && |values.value| == 2 && error.name != [] && Trim(values.value[1]) != []
             && exists j | 0 <= j < |rows| :: rows[j].line < error.line && key(rows[j].name) == key(error.name)
           case _ => false
  }

  predicate ErrorsFit(front: seq<string>, lines: seq<string>, rows: seq<ImportRow>, errors: seq<ParseError>, key: Key) {
    forall i | 0 <= i < |errors| :: ErrorFits(front, lines, rows, errors[i], key)
  }

  /**
   * Every filled line is accounted for exactly once, as the header, a row or an error, until a wrong header ends the
   * import. Only a file with the header has rows, no account is named twice, every error names a fault its line has, and a
   * file without any line that could be the header gets one more error, for its first line.
   */
  method ParseTokenCsv(lines: seq<string>, key: Key) returns (rows: seq<ImportRow>, errors: seq<ParseError>)
    ensures forall i | 0 <= i < |rows| :: IsFromFile(lines, rows[i])
    ensures DistinctNames(rows, key) && (!HasHeader(lines) ==> rows == [])
    ensures HeaderLine(lines) > 0 ==> Reports(rows, errors, Due(lines)) && ErrorsFit(lines, lines, rows, errors, key)
    ensures HeaderLine(lines) == 0 ==>
      && errors != [] && errors[|errors| - 1] == ParseError(1, [], HeaderMissing)
      && Reports(rows, errors[..|errors| - 1], Due(lines)) && ErrorsFit(lines, lines, rows, errors[..|errors| - 1], key)
  {
    rows, errors := [], [];
    var seen: set<string> := {};
    var headerChecked, headerValid := false, false;
    var index := 0;
    while index < |lines|
      invariant index <= |lines| && ReadSoFar(lines[..index], lines, rows, errors, seen, headerChecked, headerValid, key)
    {
      if IsBlank(lines[index]) || (headerChecked && !headerValid) {
        LinePassed(lines, index, rows, errors, seen, headerChecked, headerValid, key);
      } else {
        rows, errors, seen, headerChecked, headerValid := TakeLine(lines, index, rows, errors, seen, headerChecked, headerValid, key);
      }
      index := index + 1;
    }
    assert lines[..index] == lines;
    if !headerChecked {
      ghost var found := errors;
      errors := errors + [ParseError(1, [], HeaderMissing)];
      assert errors[..|errors| - 1] == found;
    }
  }

  /** The loop's variables tell what the lines read so far, `front`, say. */
  ghost predicate ReadSoFar(front: seq<string>, lines: seq<string>, rows: seq<ImportRow>, errors: seq<ParseError>, seen: set<string>,
                            checked: bool, valid: bool, key: Key)
  {
    && (checked <==> HeaderLine(front) > 0) && (valid <==> HasHeader(front)) && (!valid ==> rows == [])
    && RowsOk(lines, rows, seen, key) && Reports(rows, errors, Due(front)) && UpTo(rows, errors, |front|)
    && ErrorsFit(front, lines, rows, errors, key)
  }

  lemma LinePassed(lines: seq<string>, index: nat, rows: seq<ImportRow>, errors: seq<ParseError>, seen: set<string>,
                   checked: bool, valid: bool, key: Key)
    requires index < |lines| && ReadSoFar(lines[..index], lines, rows, errors, seen, checked, valid, key)
    requires IsBlank(lines[index]) || (checked && !valid)
    ensures ReadSoFar(lines[..index + 1], lines, rows, errors, seen, checked, valid, key)
  {
    OneLineMore(lines, index);
    ErrorsStillFit(lines[..index], lines[..index + 1], lines, rows, rows, errors, key);
  }

  lemma HeaderTaken(lines: seq<string>, index: nat, rows: seq<ImportRow>, errors: seq<ParseError>, seen: set<string>, key: Key)
    requires index < |lines| && ReadSoFar(lines[..index], lines, rows, errors, seen, false, false, key)
    requires !IsBlank(lines[index]) && Parse(lines[index]).Some? && IsHeader(Parse(lines[index]).value)
    ensures ReadSoFar(lines[..index + 1], lines, rows, errors, seen, true, true, key)
  {
    OneLineMore(lines, index);
    ErrorsStillFit(lines[..index], lines[..index + 1], lines, rows, rows, errors, key);
  }

  lemma ErrorTaken(lines: seq<string>, index: nat, rows: seq<ImportRow>, errors: seq<ParseError>, seen: set<string>,
                   checked: bool, valid: bool, key: Key, error: ParseError)
    requires index < |lines| && ReadSoFar(lines[..index], lines, rows, errors, seen, checked, valid, key)
    requires !IsBlank(lines[index]) && checked == valid && error.line == index + 1
    requires !checked && Parse(lines[index]).Some? ==> !IsHeader(Parse(lines[index]).value)
    requires ErrorFits(lines[..index + 1], lines, rows, error, key)
    ensures ReadSoFar(lines[..index + 1], lines, rows, errors + [error], seen, checked || Parse(lines[index]).Some?, valid, key)
  {
    OneLineMore(lines, index);
    ErrorsStillFit(lines[..index], lines[..index + 1], lines, rows, rows, errors, key);
    ErrorAdded(rows, errors, Due(lines[..index]), index + 1, error);
  }

  lemma RowTaken(lines: seq<string>, index: nat, rows: seq<ImportRow>, errors: seq<ParseError>, seen: set<string>, key: Key, row: ImportRow)
    requires index < |lines| && ReadSoFar(lines[..index], lines, rows, errors, seen, true, true, key)
    requires !IsBlank(lines[index]) && row.line == index + 1 && IsFromFile(lines, row) && key(row.name) !in seen
    ensures ReadSoFar(lines[..index + 1], lines, rows + [row], errors, seen + {key(row.name)}, true, true, key)
  {
    OneLineMore(lines, index);
    ErrorsStillFit(lines[..index], lines[..index + 1], lines, rows, rows + [row], errors, key);
    RowReported(rows, errors, Due(lines[..index]), index + 1, row);
    RowAdded(lines, rows, seen, key, row);
  }

  /** The body of the loop for a line that is neither blank nor behind a wrong header. */
  method TakeLine(lines: seq<string>, index: nat, rows: seq<ImportRow>, errors: seq<ParseError>, seen: set<string>,
                  checked: bool, valid: bool, key: Key)
    returns (rows': seq<ImportRow>, errors': seq<ParseError>, seen': set<string>, checked': bool, valid': bool)
    requires index < |lines| && ReadSoFar(lines[..index], lines, rows, errors, seen, checked, valid, key)
    requires !IsBlank(lines[index]) && checked == valid
    ensures ReadSoFar(lines[..index + 1], lines, rows', errors', seen', checked', valid', key)
  {
    rows', errors', seen', valid' := rows, errors, seen, valid;
    var verdict := ReadLine(lines[index], index + 1, checked, seen, key);
    checked' := checked || verdict.parsed;
    match verdict.result
    case HeaderFound =>
      HeaderTaken(lines, index, rows, errors, seen, key);
      valid' := true;
    case Rejected(error) =>
      FaultFits(lines, index, rows, errors, seen, checked, valid, key, error);
      ErrorTaken(lines, index, rows, errors, seen, checked, valid, key, error);
      errors' := errors + [error];
    case Row(row) =>
      RowTaken(lines, index, rows, errors, seen, key, row);
      seen', rows' := seen + {key(row.name)}, rows + [row];
  }

  /** The error is the one that the body of the loop finds in the line. */
  predicate IsFaultOf(rawLine: string, line: nat, checked: bool, seen: set<string>, key: Key, error: ParseError) {
    var values := Parse(rawLine);
    if values.None? then error == ParseError(line, [], UnclosedQuote)
    else if !checked then error == ParseError(line, FirstName(values.value), WrongHeader) && !IsHeader(values.value)
    else error == ParseError(line, FirstName(values.value), Fault(values.value)) && !IsRow(values.value, seen, key)
  }

  lemma FaultFits(lines: seq<string>, index: nat, rows: seq<ImportRow>, errors: seq<ParseError>, seen: set<string>,
                  checked: bool, valid: bool, key: Key, error: ParseError)
    requires index < |lines| && ReadSoFar(lines[..index], lines, rows, errors, seen, checked, valid, key)
    requires !IsBlank(lines[index]) && IsFaultOf(lines[index], index + 1, checked, seen, key, error)
    ensures ErrorFits(lines[..index + 1], lines, rows, error, key)
  {
    OneLineMore(lines, index);
    if error.reason == DuplicateName { NamedBefore(rows, errors, seen, key, error.name, index); }
  }

  lemma NamedBefore(rows: seq<ImportRow>, errors: seq<ParseError>, seen: set<string>, key: Key, name: string, index: nat)
    requires AllNamed(rows, seen, key) && UpTo(rows, errors, index) && key(name) in seen
    ensures exists j | 0 <= j < |rows| :: rows[j].line < index + 1 && key(rows[j].name) == key(name)
  {
    var j :| 0 <= j < |rows| && key(rows[j].name) == key(name);
    assert rows[j].line <= index;
  }

  predicate UpTo(rows: seq<ImportRow>, errors: seq<ParseError>, index: nat) {
    (forall i | 0 <= i < |rows| :: rows[i].line <= index) && forall i | 0 <= i < |errors| :: errors[i].line <= index
  }

  lemma ErrorAdded(rows: seq<ImportRow>, errors: seq<ParseError>, due: set<nat>, index: nat, error: ParseError)
    requires index > 0 && Reports(rows, errors, due) && UpTo(rows, errors, index - 1) && error.line == index
    ensures Reports(rows, errors + [error], due + {index}) && UpTo(rows, errors + [error], index)
  {
    var all := errors + [error];
    assert ErrorLines(all) == ErrorLines(errors) + {index} by {
      forall n | n in ErrorLines(errors) ensures n in ErrorLines(all) {
        var i :| 0 <= i < |errors| && errors[i].line == n;
        assert all[i].line == n;
      }
      assert all[|errors|].line == index;
    }
  }

  lemma RowReported(rows: seq<ImportRow>, errors: seq<ParseError>, due: set<nat>, index: nat, row: ImportRow)
    requires index > 0 && Reports(rows, errors, due) && UpTo(rows, errors, index - 1) && row.line == index
    ensures Reports(rows + [row], errors, due + {index}) && UpTo(rows + [row], errors, index)
  {
    var all := rows + [row];
    assert RowLines(all) == RowLines(rows) + {index} by {
      forall n | n in RowLines(rows) ensures n in RowLines(all) {
        var i :| 0 <= i < |rows| && rows[i].line == n;
        assert all[i].line == n;
      }
      assert all[|rows|].line == index;
    }
  }

  lemma OneLineMore(lines: seq<string>, index: nat)
    requires index < |lines|
    ensures var front, all, last := lines[..index], lines[..index + 1], lines[index];
      && HeaderLine(all) == (if HeaderLine(front) > 0 then HeaderLine(front)
                             else if IsBlank(last) || Parse(last).None? then 0 else index + 1)
      && (HasHeader(all) <==>
            (HasHeader(front) || (HeaderLine(front) == 0 && !IsBlank(last) && Parse(last).Some? && IsHeader(Parse(last).value))))
      && Due(all) == Due(front)
         + if IsBlank(last) || IsRefused(front) || (HeaderLine(front) == 0 && HasHeader(all)) then {} else {index + 1}
  {
    assert lines[..index + 1][..index] == lines[..index];
  }

  ghost predicate RowsOk(lines: seq<string>, rows: seq<ImportRow>, seen: set<string>, key: Key) {
    && AllRead(lines, rows, seen, key) && AllNamed(rows, seen, key) && DistinctNames(rows, key)
  }

  predicate AllRead(lines: seq<string>, rows: seq<ImportRow>, seen: set<string>, key: Key) {
    forall i | 0 <= i < |rows| :: IsFromFile(lines, rows[i]) && key(rows[i].name) in seen
  }

  lemma RowAdded(lines: seq<string>, rows: seq<ImportRow>, seen: set<string>, key: Key, row: ImportRow)
    requires RowsOk(lines, rows, seen, key) && IsFromFile(lines, row) && key(row.name) !in seen
    ensures RowsOk(lines, rows + [row], seen + {key(row.name)}, key)
  {
    ReadAdded(lines, rows, seen, key, row);
    NamesAdded(rows, seen, key, row);
  }

  lemma ReadAdded(lines: seq<string>, rows: seq<ImportRow>, seen: set<string>, key: Key, row: ImportRow)
    requires AllRead(lines, rows, seen, key) && IsFromFile(lines, row) && DistinctNames(rows, key) && key(row.name) !in seen
    ensures AllRead(lines, rows + [row], seen + {key(row.name)}, key) && DistinctNames(rows + [row], key)
  {
    forall i | 0 <= i < |rows| ensures key(rows[i].name) != key(row.name) { assert key(rows[i].name) in seen; }
  }

  ghost predicate AllNamed(rows: seq<ImportRow>, seen: set<string>, key: Key) {
    forall k | k in seen :: exists i | 0 <= i < |rows| :: key(rows[i].name) == k
  }

  lemma NamesAdded(rows: seq<ImportRow>, seen: set<string>, key: Key, row: ImportRow)
    requires AllNamed(rows, seen, key)
    ensures AllNamed(rows + [row], seen + {key(row.name)}, key)
  {
    var all := rows + [row];
    forall k | k in seen + {key(row.name)} ensures exists i | 0 <= i < |all| :: key(all[i].name) == k {
      if k in seen {
        var i :| 0 <= i < |rows| && key(rows[i].name) == k;
        assert key(all[i].name) == k;
      } else {
        assert key(all[|rows|].name) == k;
      }
    }
  }

  /** What fitted before fits with more lines read, once their header is settled, and with more rows found. */
  lemma ErrorsStillFit(front: seq<string>, more: seq<string>, lines: seq<string>, rows: seq<ImportRow>, rows': seq<ImportRow>,
                       errors: seq<ParseError>, key: Key)
    requires ErrorsFit(front, lines, rows, errors, key)
    requires HeaderLine(front) > 0 ==> HeaderLine(more) == HeaderLine(front) && (HasHeader(more) <==> HasHeader(front))
    requires |rows| <= |rows'| && rows'[..|rows|] == rows
    ensures ErrorsFit(more, lines, rows', errors, key)
  {
    forall i | 0 <= i < |errors| ensures ErrorFits(more, lines, rows', errors[i], key) {
      assert ErrorFits(front, lines, rows, errors[i], key);
      if errors[i].reason == DuplicateName {
        var j :| 0 <= j < |rows| && rows[j].line < errors[i].line && key(rows[j].name) == key(errors[i].name);
        assert rows'[j] == rows'[..|rows|][j];
      }
    }
  }

  function FirstName(values: seq<string>): string {
    if values == [] then [] else Trim(values[0])
  }

  /** One filled line; the first one that parses is taken for the header. */
  method ReadLine(rawLine: string, line: nat, headerChecked: bool, seen: set<string>, key: Key) returns (verdict: Verdict)
    ensures verdict.parsed <==> Parse(rawLine).Some?
    ensures verdict.result.HeaderFound? <==> !headerChecked && Parse(rawLine).Some? && IsHeader(Parse(rawLine).value)
    ensures verdict.result.Rejected? ==> IsFaultOf(rawLine, line, headerChecked, seen, key, verdict.result.error)
    ensures verdict.result.Row? <==> headerChecked && Parse(rawLine).Some? && IsRow(Parse(rawLine).value, seen, key)
    ensures verdict.result.Row? ==>
      verdict.result.row == ImportRow(line, Trim(Parse(rawLine).value[0]), Trim(Parse(rawLine).value[1]))
  {
    var values := ParseCsvLine(rawLine);
    if values.None? { return Verdict(false, Rejected(ParseError(line, [], UnclosedQuote))); }
    if !headerChecked {
      if IsHeader(values.value) { return Verdict(true, HeaderFound); }
      return Verdict(true, Rejected(ParseError(line, FirstName(values.value), WrongHeader)));
    }
    var result := ReadRow(values.value, line, seen, key);
    return Verdict(true, result);
  }

  predicate IsRow(values: seq<string>, seen: set<string>, key: Key) {
    |values| == 2 && Trim(values[0]) != [] && Trim(values[1]) != [] && key(Trim(values[0])) !in seen
  }

  /** The first thing wrong with a line that is no row. */
  function Fault(values: seq<string>): Reason {
    if |values| != 2 then WrongColumns
    else if Trim(values[0]) == [] then NameMissing
    else if Trim(values[1]) == [] then TokenMissing
    else DuplicateName
  }

  method ReadRow(values: seq<string>, line: nat, seen: set<string>, key: Key) returns (result: LineResult)
    ensures !result.HeaderFound? && (result.Row? <==> IsRow(values, seen, key))
    ensures result.Row? ==> result.row == ImportRow(line, Trim(values[0]), Trim(values[1]))
    ensures result.Rejected? ==> result.error == ParseError(line, FirstName(values), Fault(values))
  {
    var name := FirstName(values);
    if |values| != 2 { return Rejected(ParseError(line, name, WrongColumns)); }
    var token := Trim(values[1]);
    if name == [] { return Rejected(ParseError(line, name, NameMissing)); }
    if token == [] { return Rejected(ParseError(line, name, TokenMissing)); }
    if key(name) in seen { return Rejected(ParseError(line, name, DuplicateName)); }
    return Row(ImportRow(line, name, token));
  }
}
