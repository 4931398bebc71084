/** The parser of nvidia-smi's CSV output. */
module Nvidia {
  import opened Wrappers
  import opened Int64
  import opened Strings

  datatype GPU = GPU(index: int, name: string, total: nat, free: nat, util: int)

  datatype Error = WrongFieldCount(count: nat) | BadIndex | BadTotal | BadFree | BadUtilization | NoGPUs

  const SEPARATOR := ", "

  // ---------- What the output means ----------

  /** One line with its outer spaces gone. */
  function ParseLine(line: string): Result<GPU, Error> {
    var fields := Split(line, SEPARATOR);
    if |fields| != 5 then Err(WrongFieldCount(|fields|))
    else
      var index, total, free, util :=
        Atoi(TrimSpace(fields[0])), ParseUint(TrimSpace(fields[2])), ParseUint(TrimSpace(fields[3])),
              Atoi(TrimSpace(fields[4]));
      if index.None? then Err(BadIndex)
      else if total.None? then Err(BadTotal)
      else if free.None? then Err(BadFree)
      else if util.None? then Err(BadUtilization)
      else Ok(GPU(index.value, TrimSpace(fields[1]), total.value, free.value, util.value))
  }

  /** What a line of five fields is read as, and the error of the first field that is no number; any other
      number of fields is an error of its own. */
  lemma ParseLineMeans(line: string, f: seq<string>)
    requires f == Split(line, ", ")
    ensures ParseLine(line) == Err(WrongFieldCount(|f|)) <==> |f| != 5
    ensures |f| == 5 ==>
              var i, t, m, u :=
                Atoi(TrimSpace(f[0])), ParseUint(TrimSpace(f[2])), ParseUint(TrimSpace(f[3])), Atoi(TrimSpace(f[4]));
              && (ParseLine(line) == Err(BadIndex) <==> i.None?)
              && (ParseLine(line) == Err(BadTotal) <==> i.Some? && t.None?)
              && (ParseLine(line) == Err(BadFree) <==> i.Some? && t.Some? && m.None?)
              && (ParseLine(line) == Err(BadUtilization) <==> i.Some? && t.Some? && m.Some? && u.None?)
              && forall g :: ParseLine(line) == Ok(g) <==>
                      i == Some(g.index) && t == Some(g.total) && m == Some(g.free) && u == Some(g.util)
                      && g.name == TrimSpace(f[1])
  {
    hide Split, Atoi, ParseUint, TrimSpace;
  }

  predicate Blank(line: string) {
    TrimSpace(line) == ""
  }

  /** The lines that count, trimmed, in order. */
  function Rows(lines: seq<string>): seq<string> {
    if lines == [] then []
    else (if Blank(lines[0]) then [] else [TrimSpace(lines[0])]) + Rows(lines[1..])
  }

  /** The rows are the lines that are not all space, each without the space around it, in order: row `k` comes
      from line `at[k]`. */
  lemma {:induction false} RowsMean(lines: seq<string>) returns (at: seq<nat>)
    ensures |at| == |Rows(lines)| && forall j, k :: 0 <= j < k < |at| ==> at[j] < at[k]
    ensures forall k :: 0 <= k < |at| ==>
              at[k] < |lines| && Rows(lines)[k] == TrimSpace(lines[at[k]]) && Rows(lines)[k] != ""
    ensures forall i: nat :: i < |lines| && i !in at ==> TrimSpace(lines[i]) == ""
  {
    hide TrimSpace;
    if lines == [] {
      at := [];
    } else {
      var init, last := lines[..|lines| - 1], lines[|lines| - 1];
      at := RowsMean(init);
      assert lines == init + [last];
      RowsAppend(init, last);
      if !Blank(last) {
        ghost var was := at;
        at := at + [|init|];
        assert forall i :: i in at <==> i in was || i == |init|;
      }
    }
  }

  function OutputRows(output: string): seq<string> {
    Rows(Split(TrimSpace(output), "\n"))
  }

  /** `gpus` are what the rows parse to, row by row. */
  predicate ParsesTo(rows: seq<string>, gpus: seq<GPU>) {
    |gpus| == |rows| && forall i :: 0 <= i < |rows| ==> ParseLine(rows[i]) == Ok(gpus[i])
  }

  /** Row `i` is the first that does not parse. */
  predicate FirstBad(rows: seq<string>, i: nat, e: Error) {
    i < |rows| && ParseLine(rows[i]) == Err(e) && forall j :: 0 <= j < i ==> ParseLine(rows[j]).Ok?
  }

  /** All or nothing: the GPUs of every row, in order; or the error of the first row that does not
      parse; or, without any row, an error of its own. */
  ghost predicate Means(rows: seq<string>, r: Result<seq<GPU>, Error>) {
    match r
    case Ok(gpus) => rows != [] && ParsesTo(rows, gpus)
    case Err(e) => (rows == [] && e == NoGPUs) || exists i :: FirstBad(rows, i, e)
  }

  lemma MeansDetermined(rows: seq<string>, a: Result<seq<GPU>, Error>, b: Result<seq<GPU>, Error>)
    requires Means(rows, a) && Means(rows, b)
    ensures a == b
  {
    if a.Ok? && b.Ok? {
      assert forall i :: 0 <= i < |rows| ==> Ok(a.value[i]) == ParseLine(rows[i]) == Ok(b.value[i]);
      assert a.value == b.value;
    }
  }

  /** The parse succeeds exactly when there is a row and every row parses. */
  lemma OkIff(rows: seq<string>, r: Result<seq<GPU>, Error>)
    requires Means(rows, r)
    ensures r.Ok? <==> rows != [] && forall i :: 0 <= i < |rows| ==> ParseLine(rows[i]).Ok?
  {
  }

  // ---------- The parser ----------

  lemma {:induction false} RowsAppend(lines: seq<string>, line: string)
    ensures Rows(lines + [line]) == Rows(lines) + if Blank(line) then [] else [TrimSpace(line)]
  {
    if lines == [] {
      assert lines + [line] == [line];
    } else {
      RowsAppend(lines[1..], line);
      assert (lines + [line])[1..] == lines[1..] + [line];
    }
  }

  lemma {:induction false} RowsPrefix(lines: seq<string>, i: nat)
    requires i <= |lines|
    ensures Rows(lines[..i]) <= Rows(lines)
    decreases |lines| - i
  {
    if i == |lines| {
      assert lines[..i] == lines;
    } else {
      RowsAppend(lines[..i], lines[i]);
      assert lines[..i] + [lines[i]] == lines[..i + 1];
      RowsPrefix(lines, i + 1);
    }
  }

  lemma BadAfterGood(rows: seq<string>, good: seq<string>, gpus: seq<GPU>, row: string, e: Error)
    requires good + [row] <= rows && ParsesTo(good, gpus) && ParseLine(row) == Err(e)
    ensures Means(rows, Err(e))
  {
    hide ParseLine;
    assert forall j :: 0 <= j < |good| ==> rows[j] == good[j];
    assert rows[|good|] == row;
    assert FirstBad(rows, |good|, e);
  }

  lemma BadRow(lines: seq<string>, i: nat, gpus: seq<GPU>, e: Error)
    requires i < |lines| && !Blank(lines[i]) && ParsesTo(Rows(lines[..i]), gpus)
    requires ParseLine(TrimSpace(lines[i])) == Err(e)
    ensures Means(Rows(lines), Err(e))
  {
    hide ParseLine, TrimSpace, Rows, ParsesTo, Means, FirstBad;
    RowsAppend(lines[..i], lines[i]);
    assert lines[..i] + [lines[i]] == lines[..i + 1];
    RowsPrefix(lines, i + 1);
    BadAfterGood(Rows(lines), Rows(lines[..i]), gpus, TrimSpace(lines[i]), e);
  }

  /** `parseNVIDIAOutput`. */
  method ParseNVIDIAOutput(output: string) returns (r: Result<seq<GPU>, Error>)
    ensures Means(OutputRows(output), r)
  {
    hide TrimSpace, Split, Atoi, ParseUint, Means;
    var gpus: seq<GPU> := [];
    var lines := Split(TrimSpace(output), "\n");
    for i := 0 to |lines|
      invariant ParsesTo(Rows(lines[..i]), gpus)
    {
      RowsAppend(lines[..i], lines[i]);
      assert lines[..i] + [lines[i]] == lines[..i + 1];
      var line := TrimSpace(lines[i]);
      if line == "" { continue; }
      var fields := Split(line, SEPARATOR);
      if |fields| != 5 {
        BadRow(lines, i, gpus, WrongFieldCount(|fields|));
        return Err(WrongFieldCount(|fields|));
      }
      var index := Atoi(TrimSpace(fields[0]));
      if index.None? {
        BadRow(lines, i, gpus, BadIndex);
        return Err(BadIndex);
      }
      var total := ParseUint(TrimSpace(fields[2]));
      if total.None? {
        BadRow(lines, i, gpus, BadTotal);
        return Err(BadTotal);
      }
      var free := ParseUint(TrimSpace(fields[3]));
      if free.None? {
        BadRow(lines, i, gpus, BadFree);
        return Err(BadFree);
      }
      var util := Atoi(TrimSpace(fields[4]));
      if util.None? {
        BadRow(lines, i, gpus, BadUtilization);
        return Err(BadUtilization);
      }
      gpus := gpus + [GPU(index.value, TrimSpace(fields[1]), total.value, free.value, util.value)];
    }
    assert lines[..|lines|] == lines;
    r := if |gpus| == 0 then Err(NoGPUs) else Ok(gpus);
    AllRows(Rows(lines), gpus);
  }

  lemma AllRows(rows: seq<string>, gpus: seq<GPU>)
    requires ParsesTo(rows, gpus)
    ensures Means(rows, if |gpus| == 0 then Err(NoGPUs) else Ok(gpus))
  {
  }

  // ---------- Printing ----------

  /** A GPU the printed form can carry. */
  predicate Printable(g: GPU) {
    && -TWO_63 <= g.index < TWO_63 && -TWO_63 <= g.util < TWO_63
    && g.total < TWO_64 && g.free < TWO_64
    && Trimmed(g.name) && '\n' !in g.name
    && forall i: nat :: i < |g.name| ==> !At(g.name, SEPARATOR, i)
  }

  function Fields(g: GPU): seq<string> {
    [DecimalInt(g.index), g.name, Decimal(g.total), Decimal(g.free), DecimalInt(g.util)]
  }

  /** One row as nvidia-smi prints it for the query. */
  function Row(g: GPU): string {
    Join(Fields(g), SEPARATOR)
  }

  function AllPrinted(gpus: seq<GPU>): seq<string> {
    seq(|gpus|, i requires 0 <= i < |gpus| => Row(gpus[i]))
  }

  /** The rows, each on a line of its own. */
  function Printed(gpus: seq<GPU>): string
    requires |gpus| >= 1
  {
    Join(AllPrinted(gpus), "\n") + "\n"
  }

  /** Digits and an optional sign. */
  predicate Numeral(s: string) {
    s != "" && forall i :: 0 <= i < |s| ==> IsDigit(s[i]) || s[i] == '-'
  }

  lemma DecimalNumeral(n: int)
    ensures Numeral(DecimalInt(n)) && (n >= 0 ==> DecimalInt(n) == Decimal(n))
  {
    var d := Decimal(if n < 0 then -n else n);
    assert AllDigits(d);
  }

  lemma NumeralPlain(s: string)
    requires Numeral(s)
    ensures TrimSpace(s) == s && Clear(s, SEPARATOR) && '\n' !in s
  {
    assert !IsSpace(s[0]) && !IsSpace(s[|s| - 1]);
    TrimmedStays(s);
    forall i: nat | i < |s| ensures !At(s + SEPARATOR, SEPARATOR, i) {
      assert (s + SEPARATOR)[i] != ',';
      AtChars(s + SEPARATOR, SEPARATOR, i);
    }
  }

  /** A separator cannot straddle the end of a name: it would have to begin and end alike. */
  lemma NameClear(name: string)
    requires forall i: nat :: i < |name| ==> !At(name, SEPARATOR, i)
    ensures Clear(name, SEPARATOR)
  {
    var s := name + SEPARATOR;
    forall i: nat | i < |name| ensures !At(s, SEPARATOR, i) {
      if i + 2 <= |name| {
        assert s[i..i + 2] == name[i..i + 2];
        assert !At(name, SEPARATOR, i);
      } else {
        assert s[i + 1] == ',';
        AtChars(s, SEPARATOR, i);
      }
    }
  }

  lemma NumberFields(g: GPU)
    ensures var f := Fields(g); Numeral(f[0]) && Numeral(f[2]) && Numeral(f[3]) && Numeral(f[4])
  {
    DecimalNumeral(g.index);
    DecimalNumeral(g.total);
    DecimalNumeral(g.free);
    DecimalNumeral(g.util);
  }

  lemma FieldsClear(g: GPU)
    requires Printable(g)
    ensures forall i :: 0 <= i < 5 ==> Clear(Fields(g)[i], SEPARATOR) && TrimSpace(Fields(g)[i]) == Fields(g)[i]
  {
    NumberFields(g);
    NameClear(g.name);
    TrimmedStays(g.name);
    forall i | 0 <= i < 5 && i != 1 ensures Clear(Fields(g)[i], SEPARATOR) && TrimSpace(Fields(g)[i]) == Fields(g)[i] {
      NumeralPlain(Fields(g)[i]);
    }
  }

  lemma RowParses(g: GPU)
    requires Printable(g)
    ensures ParseLine(Row(g)) == Ok(g)
  {
    FieldsClear(g);
    SplitUndoesJoin(Fields(g), SEPARATOR);
    AtoiUndoes(g.index);
    AtoiUndoes(g.util);
    ParseUintUndoes(g.total);
    ParseUintUndoes(g.free);
    hide Split, Join, Atoi, ParseUint, TrimSpace, Clear, Decimal, DecimalInt;
  }

  // ---------- Parsing undoes printing ----------

  /** A text a line of the output can be: not blank, without outer spaces, without a newline. */
  predicate Line(s: string) {
    s != "" && Trimmed(s) && '\n' !in s
  }

  lemma {:induction false} JoinKeeps(parts: seq<string>, sep: string, c: char)
    requires |parts| >= 1 && c !in sep && forall i :: 0 <= i < |parts| ==> c !in parts[i]
    ensures c !in Join(parts, sep)
  {
    if |parts| > 1 { JoinKeeps(parts[1..], sep, c); }
  }

  lemma {:induction false} JoinEnds(parts: seq<string>, sep: string)
    requires |parts| >= 1 && parts[0] != "" && parts[|parts| - 1] != ""
    ensures var j, last := Join(parts, sep), parts[|parts| - 1];
            j != "" && j[0] == parts[0][0] && j[|j| - 1] == last[|last| - 1]
  {
    if |parts| == 2 {
      assert Join(parts, sep) == parts[0] + sep + parts[1];
    } else if |parts| > 2 {
      JoinEndsLast(parts[1..], sep);
    }
  }

  lemma {:induction false} JoinEndsLast(parts: seq<string>, sep: string)
    requires |parts| >= 1 && parts[|parts| - 1] != ""
    ensures var j, last := Join(parts, sep), parts[|parts| - 1]; j != "" && j[|j| - 1] == last[|last| - 1]
  {
    if |parts| > 1 { JoinEndsLast(parts[1..], sep); }
  }

  lemma RowIsLine(g: GPU)
    requires Printable(g)
    ensures Line(Row(g))
  {
    NumberFields(g);
    var f := Fields(g);
    forall i | 0 <= i < 5 && i != 1 ensures '\n' !in f[i] { NumeralPlain(f[i]); }
    JoinKeeps(f, SEPARATOR, '\n');
    JoinEnds(f, SEPARATOR);
    assert !IsSpace(f[0][0]) && !IsSpace(f[4][|f[4]| - 1]);
  }

  lemma NoNewlineClear(s: string)
    requires '\n' !in s
    ensures Clear(s, "\n")
  {
    forall i: nat | i < |s| ensures !At(s + "\n", "\n", i) {
      assert (s + "\n")[i..i + 1][0] == s[i];
    }
  }

  lemma {:induction false} LinesAreRows(lines: seq<string>)
    requires forall i :: 0 <= i < |lines| ==> Line(lines[i])
    ensures Rows(lines) == lines
  {
    if lines != [] {
      TrimmedStays(lines[0]);
      LinesAreRows(lines[1..]);
      assert lines == [lines[0]] + lines[1..];
    }
  }

  /** The output made of such lines has exactly those rows. */
  lemma OutputOfLines(lines: seq<string>)
    requires |lines| >= 1 && forall i :: 0 <= i < |lines| ==> Line(lines[i])
    ensures OutputRows(Join(lines, "\n") + "\n") == lines
  {
    var text := Join(lines, "\n");
    JoinEnds(lines, "\n");
    TrimsTail(text, "\n");
    forall i | 0 <= i < |lines| ensures Clear(lines[i], "\n") { NoNewlineClear(lines[i]); }
    SplitUndoesJoin(lines, "\n");
    LinesAreRows(lines);
  }

  /** For every nonempty list of printable GPUs the parser, given what they print as, returns exactly
      those GPUs in order. */
  lemma ParseUndoesPrint(gpus: seq<GPU>, r: Result<seq<GPU>, Error>)
    requires |gpus| >= 1 && forall i :: 0 <= i < |gpus| ==> Printable(gpus[i])
    requires Means(OutputRows(Printed(gpus)), r)
    ensures r == Ok(gpus)
  {
    var rows := AllPrinted(gpus);
    forall i | 0 <= i < |rows| ensures Line(rows[i]) && ParseLine(rows[i]) == Ok(gpus[i]) {
      RowIsLine(gpus[i]);
      RowParses(gpus[i]);
    }
    OutputOfLines(rows);
    hide ParseLine, OutputRows, Row, Join;
    assert ParsesTo(rows, gpus);
    MeansDetermined(rows, r, Ok(gpus));
  }
}
