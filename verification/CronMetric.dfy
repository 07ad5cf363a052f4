/** The text of one cron's terminal metric file: what is written, what is read
    back, and what one more run does to it. */
module CronMetric {
  import opened Common
  import opened Text

  datatype Outcome = Success | Failure

  datatype Counts = Counts(success: nat, failure: nat)

  const ZERO := Counts(0, 0)

  function AddRun(c: Counts, outcome: Outcome): Counts {
    match outcome
    case Success => c.(success := c.success + 1)
    case Failure => c.(failure := c.failure + 1)
  }

  // Labels

  /** Backslash, CR, LF and double quote are escaped, so a label stays on its line. */
  function EscapeLabel(name: string): string {
    if |name| == 0 then ""
    else
      (match name[0]
       case '\\' => "\\\\"
       case '\r' => "\\r"
       case '\n' => "\\n"
       case '"' => "\\\""
       case c => [c]) + EscapeLabel(name[1..])
  }

  ghost predicate OneLine(s: string) {
    forall i | 0 <= i < |s| :: s[i] != '\n' && s[i] != '\r'
  }

  lemma {:induction false} EscapedLabelIsOneLine(name: string)
    ensures OneLine(EscapeLabel(name))
  {
    if |name| > 0 {
      EscapedLabelIsOneLine(name[1..]);
    }
  }

  // Writing

  function OutcomeText(outcome: Outcome): string {
    match outcome
    case Success => "success"
    case Failure => "failure"
  }

  function RunsPrefix(cron: string, outcome: Outcome): string {
    "minime_cron_runs_total{cron=\"" + cron + "\",outcome=\"" + OutcomeText(outcome) + "\"} "
  }

  function Signed(code: int): string {
    if code < 0 then "-" + Decimal(-code) else Decimal(code)
  }

  function ExitLine(cron: string, code: int): string {
    "minime_cron_last_exit_code{cron=\"" + cron + "\"} " + Signed(code)
  }

  function StampLine(cron: string, timestamp: nat): string {
    "minime_cron_last_run_" + "timestamp_seconds{cron=\"" + cron + "\"} " + Decimal(timestamp)
  }

  function Lines(cron: string, code: int, c: Counts, timestamp: nat): (lines: seq<string>) {
    [ ExitLine(cron, code),
      RunsPrefix(cron, Success) + Decimal(c.success),
      RunsPrefix(cron, Failure) + Decimal(c.failure),
      StampLine(cron, timestamp),
      "" ]
  }

  function Render(cron: string, code: int, c: Counts, timestamp: nat): string {
    JoinLines(Lines(cron, code, c, timestamp))
  }

  // Reading

  function StripCarriageReturn(line: string): string {
    if |line| > 0 && line[|line| - 1] == '\r' then line[..|line| - 1] else line
  }

  /** Splitting on an LF with an optional CR before it; the last piece keeps its CR. */
  function MetricLines(contents: string): seq<string> {
    var raw := RawLines(contents);
    seq(|raw|, i requires 0 <= i < |raw| => if i + 1 < |raw| then StripCarriageReturn(raw[i]) else raw[i])
  }

  datatype Reading = Broken | Reading(success: Option<nat>, failure: Option<nat>)

  function Take(r: Reading, line: string, cron: string, outcome: Outcome): Reading
    requires r.Reading?
  {
    var prefix := RunsPrefix(cron, outcome);
    if !(prefix <= line) then r
    else
      var raw := line[|prefix|..];
      if !AllDigits(raw) || NumberOf(raw) > MAX_SAFE_INTEGER then Broken
      else if outcome == Success then r.(success := Some(NumberOf(raw)))
      else r.(failure := Some(NumberOf(raw)))
  }

  function TakeLine(r: Reading, line: string, cron: string): Reading {
    if r.Broken? then Broken
    else
      var s := Take(r, line, cron, Success);
      if s.Broken? then Broken else Take(s, line, cron, Failure)
  }

  function TakeLines(r: Reading, lines: seq<string>, cron: string): Reading {
    if |lines| == 0 then r
    else TakeLine(TakeLines(r, lines[..|lines| - 1], cron), lines[|lines| - 1], cron)
  }

  function CountsOf(r: Reading): Counts {
    if r.Reading? && r.success.Some? && r.failure.Some? then Counts(r.success.value, r.failure.value)
    else ZERO
  }

  /** What a stored file counts as: anything incomplete, malformed or out of the
      safe integer range counts as no runs at all. */
  function Parse(contents: string, cron: string): Counts {
    CountsOf(TakeLines(Reading(None, None), MetricLines(contents), cron))
  }

  /** The reader as it runs: it leaves at the first malformed value. */
  method ParseCronRunCounts(contents: string, cron: string) returns (c: Counts)
    ensures c == Parse(contents, cron)
  {
    var lines := MetricLines(contents);
    var success: Option<nat>, failure: Option<nat> := None, None;
    var i := 0;
    while i < |lines|
      invariant 0 <= i <= |lines|
      invariant TakeLines(Reading(None, None), lines[..i], cron) == Reading(success, failure)
    {
      var line := lines[i];
      assert lines[..i + 1][..i] == lines[..i];
      var r := TakeLine(Reading(success, failure), line, cron);
      if r.Broken? {
        BrokenStaysBroken(Reading(None, None), lines, i + 1, cron);
        return ZERO;
      }
      success, failure := r.success, r.failure;
      i := i + 1;
    }
    assert lines[..i] == lines;
    if success.None? || failure.None? {
      return ZERO;
    }
    return Counts(success.value, failure.value);
  }

  lemma {:induction false} BrokenStaysBroken(r: Reading, lines: seq<string>, n: nat, cron: string)
    requires n <= |lines| && TakeLines(r, lines[..n], cron).Broken?
    ensures TakeLines(r, lines, cron).Broken?
    decreases |lines|
  {
    if n == |lines| {
      assert lines[..n] == lines;
    } else {
      var shorter := lines[..|lines| - 1];
      assert shorter[..n] == lines[..n];
      BrokenStaysBroken(r, shorter, n, cron);
    }
  }

  // Round trip

  predicate Storable(c: Counts) {
    c.success <= MAX_SAFE_INTEGER && c.failure <= MAX_SAFE_INTEGER
  }

  lemma PrefixesDiffer(cron: string, rest: string)
    ensures !(RunsPrefix(cron, Failure) <= RunsPrefix(cron, Success) + rest)
    ensures !(RunsPrefix(cron, Success) <= RunsPrefix(cron, Failure) + rest)
  {
    var k := |"minime_cron_runs_total{cron=\"" + cron + "\",outcome=\""|;
    assert RunsPrefix(cron, Success)[k] == 's';
    assert RunsPrefix(cron, Failure)[k] == 'f';
  }

  lemma OtherLinesAreSkipped(r: Reading, cron: string, code: int, timestamp: nat)
    ensures TakeLine(r, ExitLine(cron, code), cron) == r
    ensures TakeLine(r, StampLine(cron, timestamp), cron) == r
    ensures TakeLine(r, "", cron) == r
  {
    var k := |"minime_cron_"|;
    assert RunsPrefix(cron, Success)[k] == 'r' && RunsPrefix(cron, Failure)[k] == 'r';
    assert ExitLine(cron, code)[k] == 'l' && StampLine(cron, timestamp)[k] == 'l';
  }

  lemma RunsLineIsTaken(r: Reading, cron: string, outcome: Outcome, n: nat)
    requires r.Reading?
    ensures TakeLine(r, RunsPrefix(cron, outcome) + Decimal(n), cron)
         == if n > MAX_SAFE_INTEGER then Broken
            else if outcome == Success then r.(success := Some(n)) else r.(failure := Some(n))
  {
    PrefixesDiffer(cron, Decimal(n));
    DecimalRoundTrip(n);
    var prefix := RunsPrefix(cron, outcome);
    assert (prefix + Decimal(n))[|prefix|..] == Decimal(n);
  }

  lemma LinesAreClean(cron: string, code: int, c: Counts, timestamp: nat)
    requires OneLine(cron)
    ensures forall i | 0 <= i < 5 :: OneLine(Lines(cron, code, c, timestamp)[i])
  {
    HeadsAreClean();
    assert OneLine(Decimal(c.success)) && OneLine(Decimal(c.failure)) && OneLine(Decimal(timestamp));
    assert OneLine(Signed(code));
    assert OneLine(ExitLine(cron, code));
    assert OneLine(RunsPrefix(cron, Success)) && OneLine(RunsPrefix(cron, Failure));
    assert OneLine(StampLine(cron, timestamp));
  }

  lemma HeadsAreClean()
    ensures OneLine("minime_cron_runs_total{cron=\"") && OneLine("\",outcome=\"") && OneLine("\"} ")
    ensures OneLine("minime_cron_last_exit_code{cron=\"")
    ensures OneLine("minime_cron_last_run_") && OneLine("timestamp_seconds{cron=\"")
  {
  }

  /** The first line of a written file is the one about the exit code, and no other code has
      that line. */
  lemma FirstLineIsExitCode(cron: string, code: int, c: Counts, timestamp: nat)
    requires OneLine(cron)
    ensures RawLines(Render(cron, code, c, timestamp))[0] == ExitLine(cron, code)
  {
    LinesAreClean(cron, code, c, timestamp);
    RawLinesUnique(Lines(cron, code, c, timestamp));
  }

  lemma ExitLineTellsCode(cron: string, a: int, b: int)
    requires ExitLine(cron, a) == ExitLine(cron, b)
    ensures a == b
  {
    var head := "minime_cron_last_exit_code{cron=\"" + cron + "\"} ";
    assert ExitLine(cron, a) == head + Signed(a) && ExitLine(cron, b) == head + Signed(b);
    assert Signed(a) == (head + Signed(a))[|head|..] && Signed(b) == (head + Signed(b))[|head|..];
    SignedTells(a, b);
  }

  lemma SignedTells(a: int, b: int)
    requires Signed(a) == Signed(b)
    ensures a == b
  {
    var i, j := if a < 0 then -a else a, if b < 0 then -b else b;
    DecimalRoundTrip(i);
    DecimalRoundTrip(j);
    assert AllDigits(Decimal(i)) && AllDigits(Decimal(j));
    assert IsDigit(Decimal(i)[0]) && IsDigit(Decimal(j)[0]);
    assert a < 0 <==> Signed(a)[0] == '-';
    assert b < 0 <==> Signed(b)[0] == '-';
    if a < 0 {
      assert Signed(a)[1..] == Decimal(i) && Signed(b)[1..] == Decimal(j);
    }
  }

  /** A file written for these counts reads back as these counts exactly while
      both fit a safe integer; past that the whole file reads as no runs. */
  lemma RenderRoundTrip(cron: string, code: int, c: Counts, timestamp: nat)
    requires OneLine(cron)
    ensures Parse(Render(cron, code, c, timestamp), cron) == if Storable(c) then c else ZERO
  {
    var lines := Lines(cron, code, c, timestamp);
    LinesAreClean(cron, code, c, timestamp);
    RawLinesUnique(lines);
    assert MetricLines(Render(cron, code, c, timestamp)) == lines;
    var r0 := Reading(None, None);
    OtherLinesAreSkipped(r0, cron, code, timestamp);
    assert lines[..1][..0] == [] && lines[..2][..1] == lines[..1] && lines[..3][..2] == lines[..2];
    assert lines[..4][..3] == lines[..3] && lines[..4] == lines[..|lines| - 1];
    assert TakeLines(r0, lines[..1], cron) == r0;
    RunsLineIsTaken(r0, cron, Success, c.success);
    var r2 := TakeLines(r0, lines[..2], cron);
    if r2.Reading? {
      RunsLineIsTaken(r2, cron, Failure, c.failure);
    }
    var r3 := TakeLines(r0, lines[..3], cron);
    OtherLinesAreSkipped(r3, cron, code, timestamp);
    assert TakeLines(r0, lines[..4], cron) == r3;
    assert TakeLines(r0, lines, cron) == r3;
  }
}
