/** The CSV cells written by the console's exports and the line reader of the token import (section 2 of RFC 4180). */
module CsvText {
  import opened Common
  import opened JsText

  // ---------------------------------------------------------------- writing

  predicate IsDigit(c: char) {
    '0' <= c <= '9'
  }

  function SkipDigits(t: string): (rest: string)
    ensures |rest| <= |t|
  {
    if t != [] && IsDigit(t[0]) then SkipDigits(t[1..]) else t
  }

  /** At least one digit, then what is left. */
  function Digits(t: string): Option<string> {
    if t != [] && IsDigit(t[0]) then Some(SkipDigits(t)) else None
  }

  predicate IsExponent(t: string) {
    t == [] || ((t[0] == 'e' || t[0] == 'E') &&
      var unsigned := if |t| > 1 && (t[1] == '+' || t[1] == '-') then t[2..] else t[1..];
      Digits(unsigned) == Some([]))
  }

  /** An optional sign, digits, an optional fraction and an optional exponent. */
  predicate IsNumber(t: string) {
    var whole := Digits(if t != [] && t[0] == '-' then t[1..] else t);
    whole.Some? && var rest := whole.value;
      if rest != [] && rest[0] == '.' then Digits(rest[1..]).Some? && IsExponent(Digits(rest[1..]).value) else IsExponent(rest)
  }

  predicate StartsFormula(t: string) {
    t != [] && (t[0] == '=' || t[0] == '+' || t[0] == '-' || t[0] == '@' || (IsSpace(t[0]) && StartsFormula(t[1..])))
  }

  /** Text a spreadsheet would evaluate, which is anything formula-like that is not a plain number. */
  predicate LooksLikeFormula(t: string) {
    !IsNumber(t) && t != [] && (t[0] == '\t' || t[0] == '\r' || t[0] == '\n' || StartsFormula(t))
  }

  function Guarded(t: string): string {
    if LooksLikeFormula(t) then "'" + t else t
  }

  function DoubleQuotes(t: string): string {
    if t == [] then [] else (if t[0] == '"' then "\"\"" else [t[0]]) + DoubleQuotes(t[1..])
  }

  function CsvCell(t: string): string {
    "\"" + DoubleQuotes(Guarded(t)) + "\""
  }

  function JoinCells(cells: seq<string>): string {
    if cells == [] then []
    else if |cells| == 1 then CsvCell(cells[0])
    else CsvCell(cells[0]) + "," + JoinCells(cells[1..])
  }

  function CsvRow(cells: seq<string>): string {
    JoinCells(cells) + "\r\n"
  }

  // ---------------------------------------------------------------- reading a line

  /** The line is read; `quoted` tells whether an odd number of unpaired quotes came before. */
  function Scan(line: string, current: string, quoted: bool, values: seq<string>): Option<seq<string>>
    decreases |line|
  {
    if line == [] then if quoted then None else Some(values + [current])
    else if line[0] == '"' && quoted && |line| > 1 && line[1] == '"' then Scan(line[2..], current + ['"'], quoted, values)
    else if line[0] == '"' then Scan(line[1..], current, !quoted, values)
    else if line[0] == ',' && !quoted then Scan(line[1..], [], quoted, values + [current])
    else Scan(line[1..], current + [line[0]], quoted, values)
  }

  /** None stands for the error about an unclosed quote. */
  function Parse(line: string): Option<seq<string>> {
    Scan(line, [], false, [])
  }

  method ParseCsvLine(line: string) returns (result: Option<seq<string>>)
    ensures result == Parse(line)
  {
    var values: seq<string> := [];
    var current: string := [];
    var quoted := false;
    var i := 0;
    while i < |line|
      invariant i <= |line|
      invariant Scan(line[i..], current, quoted, values) == Parse(line)
    {
      var c := line[i];
      if c == '"' && quoted && i + 1 < |line| && line[i + 1] == '"' {
        assert line[i..][2..] == line[i + 2..];
        current := current + ['"'];
        i := i + 1;
      } else if c == '"' {
        quoted := !quoted;
      } else if c == ',' && !quoted {
        values, current := values + [current], [];
      } else {
        current := current + [c];
      }
      i := i + 1;
    }
    if quoted { return None; }
    values := values + [current];
    return Some(values);
  }

  // ---------------------------------------------------------------- what is written is read back

  /** Inside quotes a doubled text is read back up to the closing quote, which nothing doubles. */
  lemma {:induction false} ScanQuoted(t: string, rest: string, current: string, values: seq<string>)
    requires rest == [] || rest[0] != '"'
    ensures Scan(DoubleQuotes(t) + "\"" + rest, current, true, values) == Scan(rest, current + t, false, values)
    decreases |t|
  {
    var line := DoubleQuotes(t) + "\"" + rest;
    if t == [] {
      assert line == "\"" + rest && line[1..] == rest && current + t == current;
    } else {
      var tail := DoubleQuotes(t[1..]) + "\"" + rest;
      ScanQuoted(t[1..], rest, current + [t[0]], values);
      assert current + [t[0]] + t[1..] == current + t;
      if t[0] == '"' { assert line == "\"\"" + tail && line[2..] == tail; }
      else { assert line == [t[0]] + tail && line[1..] == tail; }
    }
  }

  lemma ScanOpens(line: string, values: seq<string>)
    requires line != [] && line[0] == '"'
    ensures Scan(line, [], false, values) == Scan(line[1..], [], true, values)
  {
  }

  lemma ScanCell(t: string, rest: string, values: seq<string>)
    requires rest == [] || rest[0] == ','
    ensures Scan(CsvCell(t) + rest, [], false, values) == Scan(rest, Guarded(t), false, values)
  {
    var text := Guarded(t);
    var line := CsvCell(t) + rest;
    assert line[1..] == DoubleQuotes(text) + "\"" + rest;
    ScanOpens(line, values);
    ScanQuoted(text, rest, [], values);
    assert [] + text == text;
  }

  function GuardAll(cells: seq<string>): seq<string> {
    if cells == [] then [] else [Guarded(cells[0])] + GuardAll(cells[1..])
  }

  lemma {:induction false} ScanCells(cells: seq<string>, values: seq<string>)
    requires cells != []
    ensures Scan(JoinCells(cells), [], false, values) == Some(values + GuardAll(cells))
    decreases |cells|
  {
    if |cells| == 1 {
      ScanCell(cells[0], [], values);
      assert CsvCell(cells[0]) + [] == CsvCell(cells[0]);
      assert GuardAll(cells) == [Guarded(cells[0])] + GuardAll(cells[1..]) && GuardAll(cells[1..]) == [];
      assert values + GuardAll(cells) == values + [Guarded(cells[0])];
    } else {
      var rest := "," + JoinCells(cells[1..]);
      ScanCell(cells[0], rest, values);
      assert JoinCells(cells) == CsvCell(cells[0]) + rest && rest[1..] == JoinCells(cells[1..]);
      ScanCells(cells[1..], values + [Guarded(cells[0])]);
      assert values + [Guarded(cells[0])] + GuardAll(cells[1..]) == values + GuardAll(cells);
    }
  }

  /** Any list of cells, quotes, commas and line breaks included, is read back as the guarded texts. */
  lemma WrittenCellsAreReadBack(cells: seq<string>)
    requires cells != []
    ensures Parse(JoinCells(cells)) == Some(GuardAll(cells))
    ensures |GuardAll(cells)| == |cells| && forall i | 0 <= i < |cells| :: GuardAll(cells)[i] == Guarded(cells[i])
  {
    ScanCells(cells, []);
    assert [] + GuardAll(cells) == GuardAll(cells);
    GuardAllAt(cells);
  }

  lemma {:induction false} GuardAllAt(cells: seq<string>)
    ensures |GuardAll(cells)| == |cells| && forall i | 0 <= i < |cells| :: GuardAll(cells)[i] == Guarded(cells[i])
  {
    if cells != [] { GuardAllAt(cells[1..]); }
  }

  /** The guard leaves nothing a spreadsheet would evaluate, and guarding twice adds nothing. */
  lemma GuardDefuses(t: string)
    ensures !LooksLikeFormula(Guarded(t)) && Guarded(Guarded(t)) == Guarded(t)
  {
    if LooksLikeFormula(t) { assert Guarded(t)[0] == '\''; }
  }

  /** The first character that is not white space is one that starts a formula. */
  ghost predicate FormulaBehindSpace(t: string) {
    exists i: nat :: i < |t| && (forall k | 0 <= k < i :: IsSpace(t[k])) && IsFormulaSign(t[i])
  }

  lemma BehindOneMore(t: string)
    requires t != [] && IsSpace(t[0]) && FormulaBehindSpace(t[1..])
    ensures FormulaBehindSpace(t)
  {
    var i: nat :| i < |t[1..]| && (forall k | 0 <= k < i :: IsSpace(t[1..][k])) && IsFormulaSign(t[1..][i]);
    forall k | 0 <= k < i + 1 ensures IsSpace(t[k]) { if k > 0 { assert t[k] == t[1..][k - 1]; } }
    assert IsFormulaSign(t[i + 1]);
  }

  lemma BehindOneLess(t: string)
    requires FormulaBehindSpace(t) && !IsFormulaSign(t[0])
    ensures IsSpace(t[0]) && FormulaBehindSpace(t[1..])
  {
    var i: nat :| i < |t| && (forall k | 0 <= k < i :: IsSpace(t[k])) && IsFormulaSign(t[i]);
    assert i > 0;
    forall k | 0 <= k < i - 1 ensures IsSpace(t[1..][k]) { assert t[1..][k] == t[k + 1]; }
    assert IsFormulaSign(t[1..][i - 1]);
  }

  lemma {:induction false} StartsFormulaIff(t: string)
    ensures StartsFormula(t) <==> FormulaBehindSpace(t)
  {
    if t != [] {
      StartsFormulaIff(t[1..]);
      if IsSpace(t[0]) && FormulaBehindSpace(t[1..]) { BehindOneMore(t); }
      if FormulaBehindSpace(t) && !IsFormulaSign(t[0]) { BehindOneLess(t); }
    }
  }

  predicate IsFormulaSign(c: char) {
    c == '=' || c == '+' || c == '-' || c == '@'
  }

  /** A text of digits only, at least one. */
  predicate AreDigits(t: string) {
    t != [] && forall k | 0 <= k < |t| :: '0' <= t[k] <= '9'
  }

  predicate IsFraction(t: string) {
    t == [] || (t[0] == '.' && AreDigits(t[1..]))
  }

  predicate IsPower(t: string) {
    t == [] || ((t[0] == 'e' || t[0] == 'E') && (AreDigits(t[1..]) || (|t| > 1 && (t[1] == '+' || t[1] == '-') && AreDigits(t[2..]))))
  }

  /** The text is a sign, digits, a fraction and an exponent, of which only the digits have to be there. */
  predicate IsWritten(t: string, sign: string, digits: string, fraction: string, power: string) {
    t == sign + digits + fraction + power && (sign == [] || sign == "-") && AreDigits(digits) && IsFraction(fraction) && IsPower(power)
  }

  lemma {:induction false} SkipDigitsSplits(t: string)
    ensures var n := |t| - |SkipDigits(t)|;
      && n >= 0 && SkipDigits(t) == t[n..] && (forall k | 0 <= k < n :: '0' <= t[k] <= '9') && (n < |t| ==> !IsDigit(t[n]))
  {
    if t != [] && IsDigit(t[0]) {
      SkipDigitsSplits(t[1..]);
      var n := |t| - |SkipDigits(t)|;
      assert t[1..][n - 1..] == t[n..];
      forall k | 0 <= k < n ensures '0' <= t[k] <= '9' { if k > 0 { assert t[k] == t[1..][k - 1]; } }
    } else {
      assert t[0..] == t;
    }
  }

  lemma {:induction false} DigitsEnd(digits: string, rest: string)
    requires (forall k | 0 <= k < |digits| :: '0' <= digits[k] <= '9') && (rest != [] ==> !IsDigit(rest[0]))
    ensures SkipDigits(digits + rest) == rest
  {
    if digits == [] { assert digits + rest == rest; }
    else {
      assert (digits + rest)[1..] == digits[1..] + rest;
      DigitsEnd(digits[1..], rest);
    }
  }

  lemma PowerIff(t: string)
    ensures IsExponent(t) <==> IsPower(t)
  {
    if t != [] && (t[0] == 'e' || t[0] == 'E') {
      var unsigned := if |t| > 1 && (t[1] == '+' || t[1] == '-') then t[2..] else t[1..];
      SkipDigitsSplits(unsigned);
      if AreDigits(unsigned) { DigitsEnd(unsigned, []); assert unsigned + [] == unsigned; }
      if |t| > 1 && (t[1] == '+' || t[1] == '-') { assert !AreDigits(t[1..]) by { assert t[1..][0] == t[1]; } }
    }
  }

  predicate EndsNumber(rest: string) {
    if rest != [] && rest[0] == '.' then Digits(rest[1..]).Some? && IsExponent(Digits(rest[1..]).value) else IsExponent(rest)
  }

  lemma TailEndsNumber(fraction: string, power: string)
    requires IsFraction(fraction) && IsPower(power)
    ensures EndsNumber(fraction + power) && (fraction + power != [] ==> !IsDigit((fraction + power)[0]))
  {
    PowerIff(power);
    if fraction == [] {
      assert fraction + power == power;
    } else {
      assert (fraction + power)[1..] == fraction[1..] + power;
      DigitsEnd(fraction[1..], power);
    }
  }

  lemma WrittenIsNumber(t: string, sign: string, digits: string, fraction: string, power: string)
    requires IsWritten(t, sign, digits, fraction, power)
    ensures IsNumber(t)
  {
    var unsigned := digits + (fraction + power);
    assert t == sign + unsigned;
    assert (if t != [] && t[0] == '-' then t[1..] else t) == unsigned;
    TailEndsNumber(fraction, power);
    DigitsEnd(digits, fraction + power);
    assert EndsNumber(fraction + power);
  }

  lemma TailIsWritten(rest: string) returns (fraction: string, power: string)
    requires EndsNumber(rest)
    ensures rest == fraction + power && IsFraction(fraction) && IsPower(power)
  {
    fraction, power := [], rest;
    if rest != [] && rest[0] == '.' {
      SkipDigitsSplits(rest[1..]);
      power := SkipDigits(rest[1..]);
      fraction := rest[..|rest| - |power|];
      assert fraction[1..] == rest[1..][..|rest[1..]| - |power|];
    }
    PowerIff(power);
  }

  lemma DigitsAreWritten(t: string)
    requires Digits(t).Some?
    ensures AreDigits(t[..|t| - |Digits(t).value|]) && t == t[..|t| - |Digits(t).value|] + Digits(t).value
  {
    SkipDigitsSplits(t);
  }

  lemma NumberIsWritten(t: string)
    requires IsNumber(t)
    ensures exists sign, digits, fraction, power :: IsWritten(t, sign, digits, fraction, power)
  {
    var sign := if t != [] && t[0] == '-' then "-" else "";
    var unsigned := if t != [] && t[0] == '-' then t[1..] else t;
    var rest := Digits(unsigned).value;
    var digits := unsigned[..|unsigned| - |rest|];
    DigitsAreWritten(unsigned);
    var fraction, power := TailIsWritten(rest);
    WrittenTogether(t, sign, digits, fraction, power, unsigned, rest);
  }

  lemma WrittenTogether(t: string, sign: string, digits: string, fraction: string, power: string, unsigned: string, rest: string)
    requires t == sign + unsigned && unsigned == digits + rest && rest == fraction + power
    requires (sign == [] || sign == "-") && AreDigits(digits) && IsFraction(fraction) && IsPower(power)
    ensures IsWritten(t, sign, digits, fraction, power)
  {
    assert sign + (digits + (fraction + power)) == sign + digits + fraction + power;
  }

  /** A plain number: sign, digits, fraction, exponent. */
  lemma NumberIff(t: string)
    ensures IsNumber(t) <==> exists sign, digits, fraction, power :: IsWritten(t, sign, digits, fraction, power)
  {
    if IsNumber(t) { NumberIsWritten(t); }
    if sign, digits, fraction, power :| IsWritten(t, sign, digits, fraction, power) { WrittenIsNumber(t, sign, digits, fraction, power); }
  }

  /**
   * An apostrophe is put in front of exactly the texts that are no plain number and start with a tab or a line break, or
   * behind white space with '=', '+', '-' or '@'; every other text is left as it is. So no guarded text starts like that,
   * a plain number apart.
   */
  lemma GuardIsExact(t: string)
    ensures var evaluated := !IsNumber(t) && t != [] && (t[0] == '\t' || t[0] == '\r' || t[0] == '\n' || FormulaBehindSpace(t));
      Guarded(t) == if evaluated then "'" + t else t
    ensures var g := Guarded(t); !IsNumber(g) && g != [] ==> g[0] != '\t' && g[0] != '\r' && g[0] != '\n' && !FormulaBehindSpace(g)
  {
    StartsFormulaIff(t);
    StartsFormulaIff(Guarded(t));
    GuardDefuses(t);
  }

  // ---------------------------------------------------------------- reading any line

  predicate IsPlain(cell: string) {
    forall k | 0 <= k < |cell| :: cell[k] != '"' && cell[k] != ','
  }

  lemma {:induction false} ScanPlain(cell: string, rest: string, current: string, values: seq<string>)
    requires IsPlain(cell)
    ensures Scan(cell + rest, current, false, values) == Scan(rest, current + cell, false, values)
  {
    if cell == [] {
      assert cell + rest == rest && current + cell == current;
    } else {
      assert (cell + rest)[1..] == cell[1..] + rest && current + [cell[0]] + cell[1..] == current + cell;
      ScanPlain(cell[1..], rest, current + [cell[0]], values);
    }
  }

  /** A cell as it may stand in a line: bare, when it holds neither a quote nor a comma, or quoted. */
  datatype Cell = Bare(text: string) | Quoted(text: string)

  predicate IsCell(c: Cell) {
    c.Bare? ==> IsPlain(c.text)
  }

  function Written(c: Cell): string {
    if c.Bare? then c.text else "\"" + DoubleQuotes(c.text) + "\""
  }

  function WrittenLine(cells: seq<Cell>): string {
    if cells == [] then []
    else if |cells| == 1 then Written(cells[0])
    else Written(cells[0]) + "," + WrittenLine(cells[1..])
  }

  function TextsOf(cells: seq<Cell>): seq<string> {
    if cells == [] then [] else [cells[0].text] + TextsOf(cells[1..])
  }

  lemma ScanWritten(c: Cell, rest: string, values: seq<string>)
    requires IsCell(c) && (rest == [] || rest[0] == ',')
    ensures Scan(Written(c) + rest, [], false, values) == Scan(rest, c.text, false, values)
  {
    if c.Bare? {
      ScanPlain(c.text, rest, [], values);
      assert [] + c.text == c.text;
    } else {
      var line := Written(c) + rest;
      assert line[1..] == DoubleQuotes(c.text) + "\"" + rest;
      ScanOpens(line, values);
      ScanQuoted(c.text, rest, [], values);
      assert [] + c.text == c.text;
    }
  }

  lemma {:induction false} ScanLine(cells: seq<Cell>, values: seq<string>)
    requires cells != [] && forall i | 0 <= i < |cells| :: IsCell(cells[i])
    ensures Scan(WrittenLine(cells), [], false, values) == Some(values + TextsOf(cells))
    decreases |cells|
  {
    if |cells| == 1 {
      ScanWritten(cells[0], [], values);
      assert Written(cells[0]) + [] == Written(cells[0]);
      assert TextsOf(cells) == [cells[0].text] + TextsOf(cells[1..]) && TextsOf(cells[1..]) == [];
      assert values + TextsOf(cells) == values + [cells[0].text];
    } else {
      var rest := "," + WrittenLine(cells[1..]);
      ScanWritten(cells[0], rest, values);
      assert WrittenLine(cells) == Written(cells[0]) + rest && rest[1..] == WrittenLine(cells[1..]);
      ScanLine(cells[1..], values + [cells[0].text]);
      assert values + [cells[0].text] + TextsOf(cells[1..]) == values + TextsOf(cells);
    }
  }

  /** A line of bare and quoted cells is read back as the texts of the cells, whatever the quoted ones hold. */
  lemma AnyLineIsReadBack(cells: seq<Cell>)
    requires cells != [] && forall i | 0 <= i < |cells| :: IsCell(cells[i])
    ensures Parse(WrittenLine(cells)) == Some(TextsOf(cells))
  {
    ScanLine(cells, []);
    assert [] + TextsOf(cells) == TextsOf(cells);
  }

  function Quotes(line: string): nat {
    if line == [] then 0 else (if line[0] == '"' then 1 else 0) + Quotes(line[1..])
  }

  lemma {:induction false} ScanCloses(line: string, current: string, quoted: bool, values: seq<string>)
    ensures Scan(line, current, quoted, values).None? <==> Quotes(line) % 2 == if quoted then 0 else 1
    decreases |line|
  {
    if line != [] {
      if line[0] == '"' && quoted && |line| > 1 && line[1] == '"' {
        ScanCloses(line[2..], current + ['"'], quoted, values);
        assert line[1..][1..] == line[2..];
      } else if line[0] == '"' {
        ScanCloses(line[1..], current, !quoted, values);
      } else if line[0] == ',' && !quoted {
        ScanCloses(line[1..], [], quoted, values + [current]);
      } else {
        ScanCloses(line[1..], current + [line[0]], quoted, values);
      }
    }
  }

  /** A line is refused exactly when it holds an odd number of quotes. */
  lemma RefusedIff(line: string)
    ensures Parse(line).None? <==> Quotes(line) % 2 == 1
  {
    ScanCloses(line, [], false, []);
  }

  // ---------------------------------------------------------------- a row in a file

  /** `split(/\r?\n/)`. */
  function Lines(text: string, current: string): seq<string>
    decreases |text|
  {
    if text == [] then [current]
    else if text[0] == '\n' then [current] + Lines(text[1..], [])
    else if text[0] == '\r' && |text| > 1 && text[1] == '\n' then [current] + Lines(text[2..], [])
    else Lines(text[1..], current + [text[0]])
  }

  function Breaks(text: string): nat {
    if text == [] then 0 else (if text[0] == '\n' then 1 else 0) + Breaks(text[1..])
  }

  lemma {:induction false} LineCount(text: string, current: string)
    ensures |Lines(text, current)| == Breaks(text) + 1
    decreases |text|
  {
    if text != [] {
      if text[0] == '\n' { LineCount(text[1..], []); }
      else if text[0] == '\r' && |text| > 1 && text[1] == '\n' { LineCount(text[2..], []); assert text[1..][1..] == text[2..]; }
      else { LineCount(text[1..], current + [text[0]]); }
    }
  }

  lemma {:induction false} BreaksAdd(a: string, b: string)
    ensures Breaks(a + b) == Breaks(a) + Breaks(b)
  {
    if a == [] { assert a + b == b; } else { assert (a + b)[1..] == a[1..] + b; BreaksAdd(a[1..], b); }
  }

  lemma {:induction false} UnbrokenLine(row: string, current: string)
    requires Breaks(row) == 0
    ensures Lines(row + "\r\n", current) == [current + row, []]
    decreases |row|
  {
    var text := row + "\r\n";
    if row == [] {
      assert text == "\r\n" && text[2..] == [] && current + row == current;
    } else {
      assert text[1..] == row[1..] + "\r\n" && current + [row[0]] + row[1..] == current + row;
      UnbrokenLine(row[1..], current + [row[0]]);
    }
  }

  lemma {:induction false} BreaksIff(t: string)
    ensures Breaks(t) == 0 <==> '\n' !in t
  {
    if t != [] {
      BreaksIff(t[1..]);
      assert t == [t[0]] + t[1..];
    }
  }

  lemma {:induction false} BreaksOfQuoted(t: string)
    ensures Breaks(DoubleQuotes(t)) == Breaks(t)
  {
    if t != [] {
      BreaksOfQuoted(t[1..]);
      var head := if t[0] == '"' then "\"\"" else [t[0]];
      BreaksAdd(head, DoubleQuotes(t[1..]));
      assert "\"\""[1..] == "\"" && "\""[1..] == [] && [t[0]][1..] == [];
    }
  }

  lemma BreaksOfCell(t: string)
    ensures Breaks(CsvCell(t)) == Breaks(t)
  {
    var guarded := Guarded(t);
    if LooksLikeFormula(t) { assert guarded[1..] == t; }
    BreaksOfQuoted(guarded);
    assert CsvCell(t)[1..] == DoubleQuotes(guarded) + "\"";
    BreaksAdd(DoubleQuotes(guarded), "\"");
    assert "\""[1..] == [];
  }

  predicate Unbroken(cells: seq<string>) {
    cells == [] || ('\n' !in cells[0] && Unbroken(cells[1..]))
  }

  lemma {:induction false} UnbrokenIff(cells: seq<string>)
    ensures Unbroken(cells) <==> forall i | 0 <= i < |cells| :: '\n' !in cells[i]
  {
    if cells != [] {
      UnbrokenIff(cells[1..]);
      assert forall i | 0 < i < |cells| :: cells[i] == cells[1..][i - 1];
    }
  }

  lemma BreaksOfCells(cell: string, joined: string)
    ensures Breaks(cell + "," + joined) == Breaks(cell) + Breaks(joined)
  {
    BreaksAdd(cell + ",", joined);
    BreaksAdd(cell, ",");
    assert ","[1..] == [];
  }

  lemma {:induction false} BreaksOfRow(cells: seq<string>)
    ensures Breaks(JoinCells(cells)) == 0 <==> Unbroken(cells)
  {
    if cells != [] {
      BreaksOfCell(cells[0]);
      BreaksIff(cells[0]);
      BreaksOfRow(cells[1..]);
      if |cells| > 1 { BreaksOfCells(CsvCell(cells[0]), JoinCells(cells[1..])); }
    }
  }

  /** The import splits the file into lines before it looks at quotes: a row stays one line exactly when no cell breaks it. */
  lemma RowIsOneLineIff(cells: seq<string>)
    ensures Lines(CsvRow(cells), []) == [JoinCells(cells), []] <==> forall i | 0 <= i < |cells| :: '\n' !in cells[i]
  {
    var row := JoinCells(cells);
    BreaksOfRow(cells);
    UnbrokenIff(cells);
    LineCount(CsvRow(cells), []);
    BreaksAdd(row, "\r\n");
    assert Breaks("\r\n") == 1 by { assert "\r\n"[1..] == "\n" && "\n"[1..] == []; }
    if Breaks(row) == 0 { UnbrokenLine(row, []); assert [] + row == row; }
  }
}
