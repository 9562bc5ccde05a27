/**
 * The fitness driver of the parameter search: a candidate K3 weight vector,
 * the command line it hands to the simulator, the parsing of the
 * simulator's output, the score and its memo. The numerical parts (the
 * normality test, the spectrum, `np.fromstring`'s number parsing) are
 * parameters; so is the completed process, since running it is I/O.
 */
module GridSearch {
  import opened Outcomes
  import opened K3Set
  import TestParam

  const NORMAL_TEST_P_VALUE: real := 0.05
  const NORMAL_SCORE_BONUS: real := 50.0
  /** `calc_score` splits the simulator output into this many equal segments, one per phase. */
  const SECTIONS: nat := 5
  /**
   * The fewest samples the averaged resting series may have: SciPy's
   * `normaltest` raises `ValueError` below eight (its skewness test), and
   * NumPy's `fft`, called first, raises it on an empty series.
   */
  const NORMALTEST_MIN: nat := 8

  /** A Python float score: a real number, or the `-float("inf")` failure sentinel. */
  datatype Score = NegInf | Finite(value: real)

  /** What `subprocess.run` gives back: the return code and the captured output. */
  datatype Completed = Completed(returncode: int, stdout: string)

  /**
   * The numerical pieces: `np.fromstring(line, sep=",")`, the p-value of
   * `normaltest` on the averaged resting rows, and the standard deviation of
   * the log power spectrum that `score_resting_spectrum_pink_noise` negates.
   */
  datatype Numerics = Numerics(
    fromstring: string -> seq<real>,
    normaltestP: seq<seq<real>> -> real,
    pinkStddev: seq<seq<real>> -> real)

  /** What `run_with_params` returns: the sentinel, or one row of numbers per output line. */
  datatype Run = Failed | Data(rows: seq<seq<real>>)

  // ---------------------------------------------------------------- strings

  /** The characters Python's `str.strip()` removes. */
  const PY_WHITESPACE: set<char> :=
    {' ', '\t', '\n', '\r', '\U{B}', '\U{C}', '\U{1C}', '\U{1D}', '\U{1E}', '\U{1F}', '\U{85}', '\U{A0}',
     '\U{1680}', '\U{2000}', '\U{2001}', '\U{2002}', '\U{2003}', '\U{2004}', '\U{2005}', '\U{2006}',
     '\U{2007}', '\U{2008}', '\U{2009}', '\U{200A}', '\U{2028}', '\U{2029}', '\U{202F}', '\U{205F}', '\U{3000}'}

  /** One of the characters `str.strip()` removes. */
  predicate IsSpace(c: char)
  {
    c in PY_WHITESPACE
  }

  /** `s` without its leading whitespace. */
  function StripLeft(s: string): (r: string)
    ensures |r| <= |s| && r == s[|s| - |r|..]
    ensures |r| > 0 ==> !IsSpace(r[0])
    ensures forall k :: 0 <= k < |s| - |r| ==> IsSpace(s[k])
  {
    if |s| > 0 && IsSpace(s[0]) then StripLeft(s[1..]) else s
  }

  /** `s` without its trailing whitespace. */
  function StripRight(s: string): (r: string)
    ensures |r| <= |s| && r == s[..|r|]
    ensures |r| > 0 ==> !IsSpace(r[|r| - 1])
    ensures forall k :: |r| <= k < |s| ==> IsSpace(s[k])
  {
    if |s| > 0 && IsSpace(s[|s| - 1]) then StripRight(s[..|s| - 1]) else s
  }

  /** `s.strip()`. */
  function Strip(s: string): string
  {
    StripRight(StripLeft(s))
  }

  /** `sep.join(parts)`. */
  function Join(parts: seq<string>, sep: char): string
    requires |parts| >= 1
  {
    if |parts| == 1 then parts[0] else parts[0] + [sep] + Join(parts[1..], sep)
  }

  /** No part holds the separator. */
  predicate SepFree(parts: seq<string>, sep: char)
  {
    forall k :: 0 <= k < |parts| ==> sep !in parts[k]
  }

  /**
   * `s.split(sep)`: at least one part, none holding the separator, and
   * joining them back with the separator gives `s`.
   */
  function Split(s: string, sep: char): (parts: seq<string>)
    ensures |parts| >= 1 && SepFree(parts, sep)
    ensures Join(parts, sep) == s
  {
    if |s| == 0 then [""]
    else
      var rest := Split(s[1..], sep);
      assert [s[0]] + s[1..] == s;
      if s[0] == sep then
        JoinHead([""] + rest, sep);
        assert ([""] + rest)[1..] == rest;
        [""] + rest
      else
        ExtendFirstPart(s[0], rest, sep);
        [[s[0]] + rest[0]] + rest[1..]
  }

  /** Putting a character other than the separator in front of a join lengthens its first part. */
  lemma ExtendFirstPart(c: char, parts: seq<string>, sep: char)
    requires c != sep && |parts| >= 1 && SepFree(parts, sep)
    ensures SepFree([[c] + parts[0]] + parts[1..], sep)
    ensures Join([[c] + parts[0]] + parts[1..], sep) == [c] + Join(parts, sep)
  {
    var longer := [[c] + parts[0]] + parts[1..];
    assert longer[1..] == parts[1..];
    JoinHead(parts, sep);
    JoinHead(longer, sep);
  }

  /** A join starts with its first part, followed by the separator when there are more parts. */
  lemma JoinHead(parts: seq<string>, sep: char)
    requires |parts| >= 1
    ensures |Join(parts, sep)| >= |parts[0]| && Join(parts, sep)[..|parts[0]|] == parts[0]
    ensures |parts| == 1 ==> Join(parts, sep) == parts[0]
    ensures |parts| > 1 ==> Join(parts, sep) == parts[0] + [sep] + Join(parts[1..], sep)
  {
  }

  /** Splitting a join of separator-free parts gives the parts back. */
  lemma {:induction false} SplitJoin(parts: seq<string>, sep: char)
    requires |parts| >= 1 && SepFree(parts, sep)
    ensures Split(Join(parts, sep), sep) == parts
    decreases |Join(parts, sep)|
  {
    var s := Join(parts, sep);
    if |parts[0]| == 0 {
      if |parts| > 1 {
        assert s == [sep] + Join(parts[1..], sep);
        assert s[1..] == Join(parts[1..], sep);
        SplitJoin(parts[1..], sep);
      }
    } else {
      var tail := [parts[0][1..]] + parts[1..];
      assert tail[1..] == parts[1..];
      assert s[1..] == Join(tail, sep);
      assert SepFree(tail, sep) by {
        assert forall k :: 1 <= k < |tail| ==> tail[k] == parts[k];
      }
      SplitJoin(tail, sep);
      assert s[0] == parts[0][0] && s[0] != sep;
      assert [s[0]] + tail[0] == parts[0];
    }
  }

  // ---------------------------------------------------------------- the output format

  /** What the simulator prints: each line followed by a newline. */
  function Printed(lines: seq<string>): string
  {
    if |lines| == 0 then "" else Printed(lines[..|lines| - 1]) + lines[|lines| - 1] + "\n"
  }

  /** A line the simulator prints for one bulb unit: not empty, one line, no surrounding whitespace. */
  predicate PrintedLine(line: string)
  {
    |line| > 0 && '\n' !in line && !IsSpace(line[0]) && !IsSpace(line[|line| - 1])
  }

  /** `proc.stdout.strip().split("\n")`. */
  function Lines(stdout: string): (lines: seq<string>)
    ensures |lines| >= 1
  {
    Split(Strip(stdout), '\n')
  }

  /** The printed lines joined with newlines, plus one final newline. */
  lemma {:induction false} PrintedIsJoin(lines: seq<string>)
    requires |lines| >= 1
    ensures Printed(lines) == Join(lines, '\n') + "\n"
    decreases |lines|
  {
    if |lines| > 1 {
      var init := lines[..|lines| - 1];
      PrintedIsJoin(init);
      JoinSnoc(init, lines[|lines| - 1], '\n');
      assert init + [lines[|lines| - 1]] == lines;
    } else {
      assert lines[..0] == [];
    }
  }

  /** Joining one more part appends the separator and the part. */
  lemma {:induction false} JoinSnoc(parts: seq<string>, last: string, sep: char)
    requires |parts| >= 1
    ensures Join(parts + [last], sep) == Join(parts, sep) + [sep] + last
    decreases |parts|
  {
    if |parts| > 1 {
      assert (parts + [last])[1..] == parts[1..] + [last];
      JoinSnoc(parts[1..], last, sep);
    } else {
      assert (parts + [last])[1..] == [last];
    }
  }

  /**
   * The driver reads back, in order, exactly the lines the simulator
   * printed: stripping removes only the final newline, and splitting on
   * newlines separates the lines again.
   */
  lemma OutputLines(lines: seq<string>)
    requires |lines| >= 1 && forall k :: 0 <= k < |lines| ==> PrintedLine(lines[k])
    ensures Lines(Printed(lines)) == lines
  {
    PrintedIsJoin(lines);
    StripPrinted(lines);
    assert SepFree(lines, '\n');
    SplitJoin(lines, '\n');
  }

  /** Stripping the printed text removes exactly the final newline. */
  lemma StripPrinted(lines: seq<string>)
    requires |lines| >= 1 && forall k :: 0 <= k < |lines| ==> PrintedLine(lines[k])
    ensures Strip(Join(lines, '\n') + "\n") == Join(lines, '\n')
  {
    var joined := Join(lines, '\n');
    JoinHead(lines, '\n');
    JoinLast(lines, '\n');
    assert PrintedLine(lines[0]) && PrintedLine(lines[|lines| - 1]);
    var s := joined + "\n";
    assert StripLeft(s) == s by {
      assert s[0] == lines[0][0];
    }
    assert StripRight(s) == joined by {
      assert IsSpace('\n');
      assert s[..|s| - 1] == joined;
      assert StripRight(joined) == joined;
    }
  }

  /** A join ends with its last part. */
  lemma {:induction false} JoinLast(parts: seq<string>, sep: char)
    requires |parts| >= 1
    ensures var j := Join(parts, sep); var l := parts[|parts| - 1];
      |j| >= |l| && j[|j| - |l|..] == l
    decreases |parts|
  {
    if |parts| > 1 {
      JoinLast(parts[1..], sep);
    }
  }

  // ---------------------------------------------------------------- scores

  /** The sum of the squares of `ws`, accumulated from the front. */
  function SumSquares(ws: seq<real>): real
  {
    if |ws| == 0 then 0.0 else SumSquares(ws[..|ws| - 1]) + Square(ws[|ws| - 1])
  }

  /** A sum of squares is never negative, and is zero exactly when every term is zero. */
  lemma {:induction false} SumSquaresSign(ws: seq<real>)
    ensures SumSquares(ws) >= 0.0
    ensures SumSquares(ws) == 0.0 <==> forall k :: 0 <= k < |ws| ==> ws[k] == 0.0
    decreases |ws|
  {
    if |ws| > 0 {
      var init := ws[..|ws| - 1];
      SumSquaresSign(init);
      assert forall k :: 0 <= k < |init| ==> init[k] == ws[k];
    }
  }

  /** `a*b`, kept behind a function of two arguments so that the solver treats it as one product. */
  function Product(a: real, b: real): real
  {
    a * b
  }

  /** Two factors of the same strict sign have a positive product. */
  lemma PositiveProduct(a: real, b: real)
    requires (a > 0.0 && b > 0.0) || (a < 0.0 && b < 0.0)
    ensures Product(a, b) > 0.0
  {
  }

  /** `w*w`: never negative, and positive for anything but zero. */
  function Square(x: real): (r: real)
    ensures r >= 0.0
    ensures x != 0.0 ==> r > 0.0
  {
    if x != 0.0 then PositiveProduct(x, x); Product(x, x) else Product(x, x)
  }

  /** `score_resting_normal`: the bonus when the normality test rejects at the threshold, nothing otherwise. */
  function ScoreRestingNormal(pvalue: real): (r: real)
    ensures r == NORMAL_SCORE_BONUS || r == 0.0
    ensures r == NORMAL_SCORE_BONUS <==> pvalue <= NORMAL_TEST_P_VALUE
  {
    if pvalue <= NORMAL_TEST_P_VALUE then NORMAL_SCORE_BONUS else 0.0
  }

  /** A smaller p-value never earns a smaller bonus. */
  lemma ScoreRestingNormalAntitone(p: real, q: real)
    requires p <= q
    ensures ScoreRestingNormal(p) >= ScoreRestingNormal(q)
  {
  }

  // ---------------------------------------------------------------- output segments

  /** All rows have the width of the first: the output is a matrix. */
  predicate Rectangular(rows: seq<seq<real>>)
  {
    |rows| >= 1 && forall i :: 0 <= i < |rows| ==> |rows[i]| == |rows[0]|
  }

  /**
   * Output `calc_score` can score: a matrix that splits into five equal
   * segments, leaving at least `NORMALTEST_MIN` resting columns to average.
   */
  predicate Scorable(rows: seq<seq<real>>)
  {
    Rectangular(rows) && |rows[0]| % SECTIONS == 0 && 3 * (|rows[0]| / SECTIONS) >= NORMALTEST_MIN
  }

  /** Segment `k` of the five equal segments of `row`. */
  function Segment(row: seq<real>, k: nat): (s: seq<real>)
    requires |row| % SECTIONS == 0 && k < SECTIONS
    ensures |s| == |row| / SECTIONS
  {
    var w := |row| / SECTIONS;
    row[k * w..(k + 1) * w]
  }

  /** `np.concatenate((segments[0], segments[2], segments[4]), axis=1)` for one row. */
  function RestingColumns(row: seq<real>): (r: seq<real>)
    requires |row| % SECTIONS == 0
    ensures |r| == 3 * (|row| / SECTIONS)
  {
    Segment(row, 0) + Segment(row, 2) + Segment(row, 4)
  }

  /** The resting columns of every row. */
  function Resting(rows: seq<seq<real>>): seq<seq<real>>
    requires forall i :: 0 <= i < |rows| ==> |rows[i]| % SECTIONS == 0
  {
    seq(|rows|, i requires 0 <= i < |rows| => RestingColumns(rows[i]))
  }

  /** The column of the full output that resting column `j` comes from, with segments `w` wide. */
  function SourceColumn(j: nat, w: nat): nat
  {
    if j < w then j else if j < 2 * w then j + w else j + 2 * w
  }

  /** The resting column a column of a resting phase lands in. */
  function RestingIndex(c: nat, w: nat): nat
  {
    if c < w then c else if c < 3 * w then c - w else c - 2 * w
  }

  /** The segment, and so the phase of the simulation, that column `c` falls in when segments are `w` wide. */
  function PhaseOf(c: nat, w: nat): nat
  {
    if c < w then 0 else if c < 2 * w then 1 else if c < 3 * w then 2 else if c < 4 * w then 3 else 4
  }

  /** Resting column `j` of a row is the row's column `SourceColumn(j, w)`. */
  lemma RestingColumnAt(row: seq<real>, j: nat)
    requires |row| % SECTIONS == 0 && j < 3 * (|row| / SECTIONS)
    ensures var w := |row| / SECTIONS;
      |RestingColumns(row)| == 3 * w && SourceColumn(j, w) < |row| && RestingColumns(row)[j] == row[SourceColumn(j, w)]
  {
    var w := |row| / SECTIONS;
    var s0, s2, s4 := Segment(row, 0), Segment(row, 2), Segment(row, 4);
    assert RestingColumns(row) == s0 + s2 + s4;
    if j < w {
      assert (s0 + s2 + s4)[j] == s0[j];
    } else if j < 2 * w {
      assert (s0 + s2 + s4)[j] == s2[j - w];
    } else {
      assert (s0 + s2 + s4)[j] == s4[j - 2 * w];
    }
  }

  /**
   * The resting columns are three fifths of the row; resting column `j` is
   * column `SourceColumn(j, w)` of the row, which lies in a phase in which
   * the simulation rests; and every column of a resting phase is one of
   * them. The five segments are the five phases of the simulation.
   */
  lemma RestingColumnsAreRestPhases(row: seq<real>)
    requires |row| % SECTIONS == 0
    ensures var w := |row| / SECTIONS; var r := RestingColumns(row);
      && |r| == 3 * w
      && (forall j :: 0 <= j < |r| ==>
            SourceColumn(j, w) < |row| && r[j] == row[SourceColumn(j, w)] && TestParam.Schedule()[PhaseOf(SourceColumn(j, w), w)].Rest?)
      && (forall c :: 0 <= c < |row| && TestParam.Schedule()[PhaseOf(c, w)].Rest? ==>
            RestingIndex(c, w) < |r| && SourceColumn(RestingIndex(c, w), w) == c)
  {
    var w := |row| / SECTIONS;
    TestParam.ScheduleShape();
    forall j | 0 <= j < 3 * w
      ensures SourceColumn(j, w) < |row| && RestingColumns(row)[j] == row[SourceColumn(j, w)]
      ensures TestParam.Schedule()[PhaseOf(SourceColumn(j, w), w)].Rest?
    {
      RestingColumnAt(row, j);
    }
  }

  // ---------------------------------------------------------------- the process and the score

  /**
   * `run_with_params` once the process has completed, as written: a
   * return code above zero gives the sentinel; otherwise every line of the
   * stripped output becomes a row, and `np.array` refuses rows of
   * different lengths.
   */
  function RunWithParamsAsWritten(proc: Completed, num: Numerics): (r: Result<Run>)
    ensures r.Ok? && r.value.Failed? <==> proc.returncode > 0
    ensures r.Ok? && r.value.Data? ==> Rectangular(r.value.rows)
  {
    if proc.returncode > 0 then Ok(Failed) else Parse(proc.stdout, num)
  }

  /** `run_with_params` with every non-zero return code treated as a failure. */
  function RunWithParams(proc: Completed, num: Numerics): (r: Result<Run>)
    ensures r.Ok? && r.value.Failed? <==> proc.returncode != 0
    ensures r.Ok? && r.value.Data? ==> Rectangular(r.value.rows)
  {
    if proc.returncode != 0 then Ok(Failed) else Parse(proc.stdout, num)
  }

  /** `[np.fromstring(line, sep=",") for line in lines]`. */
  function Rows(lines: seq<string>, num: Numerics): (rows: seq<seq<real>>)
    ensures |rows| == |lines| && forall i :: 0 <= i < |lines| ==> rows[i] == num.fromstring(lines[i])
  {
    seq(|lines|, i requires 0 <= i < |lines| => num.fromstring(lines[i]))
  }

  /** The rows of the output: one per line, in order, as long as they have equal lengths. */
  function Parse(stdout: string, num: Numerics): (r: Result<Run>)
    ensures r.Ok? <==> Rectangular(Rows(Lines(stdout), num))
    ensures r.Ok? ==> r.value == Data(Rows(Lines(stdout), num))
    ensures r.Err? ==> r.error == ValueError
  {
    var rows := Rows(Lines(stdout), num);
    if Rectangular(rows) then Ok(Data(rows)) else Err(ValueError)
  }

  /**
   * A process that dies from a signal (an assertion failure aborts the
   * simulator, which `subprocess.run` reports as a negative return code)
   * is not caught as written: its output, here empty, is parsed as one
   * line, which `calc_score` as written then rejects with `ValueError`
   * when that line reads as no numbers, where the corrected driver scores
   * minus infinity.
   */
  lemma AbortNotCaught(num: Numerics, penalty: real)
    ensures var proc := Completed(-6, "");
      && RunWithParamsAsWritten(proc, num) == Parse("", num)
      && RunWithParams(proc, num) == Ok(Failed)
      && Calc(RunWithParams(proc, num), penalty, num) == Ok(NegInf)
      && (num.fromstring("") == [] ==> CalcAsWritten(RunWithParamsAsWritten(proc, num), penalty, num) == Err(ValueError))
  {
    assert Lines("") == [""];
  }

  /**
   * `calc_score` as written on the result of `run_with_params`: the
   * sentinel is a float, on which `np.split` along axis 1 raises; output
   * that is not `Scorable` raises `ValueError`; otherwise the score is the weight
   * penalty, plus the normality bonus, minus the spectrum's spread, all of
   * the resting columns.
   */
  function CalcAsWritten(run: Result<Run>, penalty: real, num: Numerics): Result<real>
  {
    match run
    case Err(e) => Err(e)
    case Ok(Failed) => Err(AttributeError)
    case Ok(Data(rows)) =>
      if !Scorable(rows) then Err(ValueError)
      else
        var resting := Resting(rows);
        Ok(penalty + ScoreRestingNormal(num.normaltestP(resting)) - num.pinkStddev(resting))
  }

  /** `calc_score` with the sentinel passed through as the score, as `run_with_params` intends. */
  function Calc(run: Result<Run>, penalty: real, num: Numerics): (r: Result<Score>)
    ensures r == Ok(NegInf) <==> run == Ok(Failed)
    ensures r.Ok? && r.value.Finite? <==> run.Ok? && run.value.Data? && Scorable(run.value.rows)
    ensures r.Err? && run.Ok? ==> r.error == ValueError
  {
    match run
    case Err(e) => Err(e)
    case Ok(Failed) => Ok(NegInf)
    case Ok(Data(rows)) =>
      if !Scorable(rows) then Err(ValueError)
      else
        var resting := Resting(rows);
        Ok(Finite(penalty + ScoreRestingNormal(num.normaltestP(resting)) - num.pinkStddev(resting)))
  }

  /**
   * On output, both score the same; on the sentinel, the code as written
   * raises where the lowest possible score was meant.
   */
  lemma SentinelNeverScored(run: Result<Run>, penalty: real, num: Numerics)
    ensures run == Ok(Failed) ==> CalcAsWritten(run, penalty, num) == Err(AttributeError) && Calc(run, penalty, num) == Ok(NegInf)
    ensures run != Ok(Failed) ==>
              match CalcAsWritten(run, penalty, num)
              case Ok(v) => Calc(run, penalty, num) == Ok(Finite(v))
              case Err(e) => Calc(run, penalty, num) == Err(e)
  {
  }

  /** Python's truth value of a stored score: `None` and zero are false, `-inf` is true. */
  predicate Falsy(cached: Option<Score>)
  {
    cached == None || cached == Some(Finite(0.0))
  }

  /**
   * `K3Model`: one candidate weight vector, named after the simulator's
   * arguments, and its memoised score. `runs` counts the times the score
   * has been computed, each of which runs the simulator.
   */
  class K3Model {
    const wOB_AON: real
    const wOB_PC: real
    const wAON_OB: real
    const wAON_PG: real
    const wPC_AON: real
    const wDPC_OB: real
    const wDPC_PC: real
    const wPC_DPC: real
    const wOB_LAT_E: real
    const wOB_LAT_I: real
    var cachedScore: Option<Score>
    ghost var runs: nat

    constructor (wOB_AON: real, wOB_PC: real, wAON_OB: real, wAON_PG: real, wPC_AON: real,
                 wDPC_OB: real, wDPC_PC: real, wPC_DPC: real, wOB_LAT_E: real, wOB_LAT_I: real)
      ensures ToTuple() == [wOB_AON, wOB_PC, wAON_OB, wAON_PG, wPC_AON, wDPC_OB, wDPC_PC, wPC_DPC, wOB_LAT_E, wOB_LAT_I]
      ensures cachedScore == None && runs == 0
    {
      this.wOB_AON, this.wOB_PC, this.wAON_OB, this.wAON_PG, this.wPC_AON := wOB_AON, wOB_PC, wAON_OB, wAON_PG, wPC_AON;
      this.wDPC_OB, this.wDPC_PC, this.wPC_DPC, this.wOB_LAT_E, this.wOB_LAT_I := wDPC_OB, wDPC_PC, wPC_DPC, wOB_LAT_E, wOB_LAT_I;
      cachedScore, runs := None, 0;
    }

    /** The weight the model holds for the simulator argument of the same name. */
    function Weight(f: TestParam.Field): real
    {
      match f
      case OB_AON => wOB_AON
      case OB_PC => wOB_PC
      case AON_OB => wAON_OB
      case AON_PG => wAON_PG
      case PC_AON => wPC_AON
      case DPC_OB => wDPC_OB
      case DPC_PC => wDPC_PC
      case PC_DPC => wPC_DPC
      case OB_LAT_E => wOB_LAT_E
      case OB_LAT_I => wOB_LAT_I
    }

    /**
     * `to_tuple()`: the ten weights in the simulator's argument order, so
     * position k holds the weight for argument k + 1.
     */
    function ToTuple(): (t: seq<real>)
      ensures |t| == |TestParam.ARGS|
      ensures forall k :: 0 <= k < |t| ==> t[k] == Weight(TestParam.ARGS[k])
    {
      [wOB_AON, wOB_PC, wAON_OB, wAON_PG, wPC_AON, wDPC_OB, wDPC_PC, wPC_DPC, wOB_LAT_E, wOB_LAT_I]
    }

    /** `score_minimize_weights()`: minus the sum of the squared weights, accumulated in a loop. */
    method ScoreMinimizeWeights() returns (r: real)
      ensures r == -SumSquares(ToTuple())
      ensures r <= 0.0 && (r == 0.0 <==> forall k :: 0 <= k < |TestParam.ARGS| ==> Weight(TestParam.ARGS[k]) == 0.0)
    {
      var t := ToTuple();
      var s := 0.0;
      var k := 0;
      while k < |t|
        invariant k <= |t| && s == SumSquares(t[..k])
      {
        assert t[..k + 1][..k] == t[..k];
        s := s + t[k] * t[k];
        k := k + 1;
      }
      assert t[..k] == t;
      SumSquaresSign(t);
      r := -s;
    }

    /**
     * `calc_score()` on the completed simulator run `proc`, corrected: every
     * failed run scores minus infinity, and only output that is not
     * `Scorable` raises.
     */
    function CalcScore(proc: Completed, num: Numerics): (r: Result<Score>)
      ensures r == Ok(NegInf) <==> proc.returncode != 0
      ensures r.Err? ==> r.error == ValueError
    {
      Calc(RunWithParams(proc, num), -SumSquares(ToTuple()), num)
    }

    /**
     * `calc_score()` as written: `run_with_params` and `calc_score` as
     * written. A positive return code raises, minus infinity is never the
     * score, a zero return code scores as corrected, and a negative one
     * (a signal) scores the output as if the run had succeeded.
     */
    function CalcScoreAsWritten(proc: Completed, num: Numerics): (r: Result<Score>)
      ensures proc.returncode > 0 ==> r == Err(AttributeError)
      ensures r != Ok(NegInf)
      ensures proc.returncode == 0 ==> r == CalcScore(proc, num)
      ensures proc.returncode < 0 ==> r == CalcScore(Completed(0, proc.stdout), num)
    {
      match CalcAsWritten(RunWithParamsAsWritten(proc, num), -SumSquares(ToTuple()), num)
      case Ok(v) => Ok(Finite(v))
      case Err(e) => Err(e)
    }

    /**
     * `score(data)` as written: the stored score is recomputed whenever it
     * is false in Python, so a score of zero is computed again on every
     * call, by `calc_score` as written. An exception leaves the store as it
     * was.
     */
    method ScoreAsWritten(proc: Completed, num: Numerics) returns (r: Result<Score>)
      modifies this`cachedScore, this`runs
      ensures Falsy(old(cachedScore)) ==>
                && runs == old(runs) + 1 && r == CalcScoreAsWritten(proc, num)
                && cachedScore == (if r.Ok? then Some(r.value) else old(cachedScore))
      ensures !Falsy(old(cachedScore)) ==>
                runs == old(runs) && cachedScore == old(cachedScore) && r == Ok(old(cachedScore).value)
    {
      if Falsy(cachedScore) {
        r := CalcScoreAsWritten(proc, num);
        runs := runs + 1;
        if r.Err? {
          return;
        }
        cachedScore := Some(r.value);
      }
      r := Ok(cachedScore.value);
    }

    /** `score(data)` computing the score only when none is stored: each model runs the simulator until it succeeds once. */
    method Score(proc: Completed, num: Numerics) returns (r: Result<Score>)
      modifies this`cachedScore, this`runs
      ensures old(cachedScore) == None ==>
                && runs == old(runs) + 1 && r == CalcScore(proc, num)
                && cachedScore == (if r.Ok? then Some(r.value) else None)
      ensures old(cachedScore) != None ==>
                runs == old(runs) && cachedScore == old(cachedScore) && r == Ok(old(cachedScore).value)
    {
      if cachedScore == None {
        r := CalcScore(proc, num);
        runs := runs + 1;
        if r.Err? {
          return;
        }
        cachedScore := Some(r.value);
      }
      r := Ok(cachedScore.value);
    }
  }

  /**
   * The command `run_with_params` runs: the executable, then `str(w)` for
   * each weight of the tuple, in order.
   */
  function Command(exe: string, t: seq<real>, str: real -> string): (cmd: seq<string>)
    ensures |cmd| == |t| + 1 && cmd[0] == exe
    ensures forall k :: 0 <= k < |t| ==> cmd[k + 1] == str(t[k])
  {
    [exe] + seq(|t|, k requires 0 <= k < |t| => str(t[k]))
  }

  /**
   * The driver and the simulator agree on the argument order: when
   * `strtof` reads back each printed weight as `toFloat` of it (its
   * rounding to single precision), the command has exactly the simulator's
   * argument count, every argument parses, and every configuration field
   * the simulator fills holds the rounded weight of the same name.
   */
  lemma CommandRoundTrip(m: K3Model, exe: string, str: real -> string, strtof: TestParam.StrToF,
                         toFloat: real -> real, base: K3Config)
    requires forall w :: strtof(str(w)) == Some(toFloat(w))
    ensures var cmd := Command(exe, m.ToTuple(), str);
      && |cmd| == TestParam.NARGS && TestParam.Parsable(cmd, strtof, TestParam.NARGS - 1)
      && forall f :: TestParam.Get(TestParam.Parsed(cmd, base, strtof), f) == toFloat(m.Weight(f))
  {
    var cmd := Command(exe, m.ToTuple(), str);
    TestParam.ArgsLayout();
    TestParam.ArgvConfigFields(cmd, TestParam.Prepared(base), strtof, TestParam.ARGS);
    forall f ensures TestParam.Get(TestParam.Parsed(cmd, base, strtof), f) == toFloat(m.Weight(f)) {
      assert f in TestParam.ARGS;
      var k :| 0 <= k < |TestParam.ARGS| && TestParam.ARGS[k] == f;
      assert cmd[k + 1] == str(m.ToTuple()[k]);
    }
  }

  /**
   * The weights of the driver's example model, (1, 1, 1, 1, 1, 1, 1, -1,
   * 1, -1), pass the simulator's sign check whenever single-precision
   * rounding keeps 1 and -1 as they are.
   */
  lemma ExampleModelValid(exe: string, str: real -> string, strtof: TestParam.StrToF, toFloat: real -> real, base: K3Config)
    requires forall w :: strtof(str(w)) == Some(toFloat(w))
    requires toFloat(1.0) == 1.0 && toFloat(-1.0) == -1.0
    requires base.weights == DefaultWeights()
    ensures var t := [1.0, 1.0, 1.0, 1.0, 1.0, 1.0, 1.0, -1.0, 1.0, -1.0];
      var cmd := Command(exe, t, str);
      TestParam.Parsable(cmd, strtof, TestParam.NARGS - 1) && TestParam.Parsed(cmd, base, strtof).CheckWeightsValidity()
  {
    var t := [1.0, 1.0, 1.0, 1.0, 1.0, 1.0, 1.0, -1.0, 1.0, -1.0];
    var cmd := Command(exe, t, str);
    assert cmd[1] == str(1.0) && cmd[8] == str(-1.0);
    assert cmd[2] == str(1.0) && cmd[3] == str(1.0) && cmd[6] == str(1.0) && cmd[7] == str(1.0);
    TestParam.ParsedValidity(cmd, base, strtof);
  }

  /**
   * Any model whose score is exactly zero runs the simulator on every
   * `score` as written: twice for two calls, where the corrected memo runs
   * it once. Both store the zero.
   */
  method ZeroScoreRecomputed(asWritten: K3Model, corrected: K3Model, proc: Completed, num: Numerics)
    returns (first: Result<Score>, second: Result<Score>)
    requires asWritten != corrected && asWritten.cachedScore == None && corrected.cachedScore == None
    requires asWritten.CalcScore(proc, num) == Ok(Finite(0.0)) && corrected.CalcScore(proc, num) == Ok(Finite(0.0))
    modifies asWritten`cachedScore, asWritten`runs, corrected`cachedScore, corrected`runs
    ensures first == second == Ok(Finite(0.0))
    ensures asWritten.runs == old(asWritten.runs) + 2 && corrected.runs == old(corrected.runs) + 1
    ensures asWritten.cachedScore == corrected.cachedScore == Some(Finite(0.0))
  {
    first := asWritten.ScoreAsWritten(proc, num);
    second := asWritten.ScoreAsWritten(proc, num);
    var r := corrected.Score(proc, num);
    r := corrected.Score(proc, num);
  }

  /**
   * Zero weights, output of 40 columns per line (24 resting columns), a
   * p-value above the threshold and a flat spectrum score zero.
   */
  lemma ZeroModelScore(m: K3Model, proc: Completed, num: Numerics)
    requires m.ToTuple() == seq(10, _ => 0.0) && proc.returncode == 0
    requires forall line :: |num.fromstring(line)| == 40
    requires forall rows :: num.normaltestP(rows) == 1.0 && num.pinkStddev(rows) == 0.0
    ensures m.CalcScore(proc, num) == Ok(Finite(0.0))
  {
    SumSquaresSign(m.ToTuple());
    var rows := UniformRows(proc, num, 40);
    assert num.normaltestP(Resting(rows)) == 1.0 && num.pinkStddev(Resting(rows)) == 0.0;
  }

  /** When every line reads as `w` numbers, a successful run is a matrix `w` wide. */
  lemma UniformRows(proc: Completed, num: Numerics, w: nat) returns (rows: seq<seq<real>>)
    requires proc.returncode == 0
    requires forall line :: |num.fromstring(line)| == w
    ensures RunWithParams(proc, num) == Ok(Data(rows))
    ensures Rectangular(rows) && |rows| >= 1 && |rows[0]| == w
  {
    rows := Rows(Lines(proc.stdout), num);
    assert forall i :: 0 <= i < |rows| ==> |rows[i]| == w;
    assert Rectangular(rows) && |rows[0]| == w;
  }
}
