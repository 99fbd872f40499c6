/**
 The producer of Test Anything Protocol (TAP version 13) output used by the
 test suite: a plan line `1..N`, one `ok` / `not ok` line per test numbered
 in order, the `# TODO` and `# SKIP` directives, `Bail out!` lines and `#`
 diagnostics. Standard output is modelled as the sequence of lines written.

 Beside the line formats stands a small reader that recovers what a TAP
 consumer reads from a line: the status and number of a test line, the count
 of a plan line.
 */
module TestAnyProtocol {
  import opened Wrappers
  import opened Decimal

  // ---- The lines the producer writes ----

  /** The plan line. */
  function PlanLine(testCount: int): string {
    "1.." + IntToString(testCount)
  }

  /** A test line: outcome and number, then the directive, the component and the detail, each only when non-empty. */
  function OutcomeLine(outcome: string, number: int, special: string, component: string, detail: string): string {
    outcome + " " + IntToString(number) + OutcomeTail(special, component, detail)
  }

  /** What follows the test number on a test line (empty, or starting with a space). */
  function OutcomeTail(special: string, component: string, detail: string): (tail: string)
    ensures tail == [] || tail[0] == ' '
  {
    (if special != "" then " # " + special else "")
      + (if component != "" then " " + component + ":" else "")
      + (if detail != "" then " " + detail else "")
  }

  /** A bail-out line. */
  function BailOutLine(detail: string): string {
    "Bail out!" + (if detail != "" then " " + detail else "")
  }

  /** A diagnostic line. */
  function DiagnosticLine(diagnostic: string): string {
    "# " + diagnostic
  }

  // ---- What a TAP consumer reads from a line ----

  datatype TestPoint = TestPoint(ok: bool, number: nat)

  /** The number at the start of `s`: a run of digits ended by the end of the line or a space. */
  function ReadNumber(s: string): Option<nat> {
    var k := DigitRun(s);
    if k > 0 && (k == |s| || s[k] == ' ') then Some(ParseNat(s[..k])) else None
  }

  /** The status and number of a test line, or None for any other line. */
  function ReadTestPoint(line: string): Option<TestPoint> {
    if |line| >= 7 && line[..7] == "not ok " then
      match ReadNumber(line[7..])
      case Some(n) => Some(TestPoint(false, n))
      case None => None
    else if |line| >= 3 && line[..3] == "ok " then
      match ReadNumber(line[3..])
      case Some(n) => Some(TestPoint(true, n))
      case None => None
    else None
  }

  /** The test count of a plan line, or None for any other line. */
  function ReadPlan(line: string): Option<nat> {
    if |line| > 3 && line[..3] == "1.." && AllDigits(line[3..]) then Some(ParseNat(line[3..])) else None
  }

  function NumberOf(line: string): seq<nat> {
    match ReadTestPoint(line)
    case Some(tp) => [tp.number]
    case None => []
  }

  /** The test numbers a consumer reads from `lines`, in order. */
  function TestNumbers(lines: seq<string>): seq<nat> {
    if lines == [] then [] else TestNumbers(lines[..|lines| - 1]) + NumberOf(lines[|lines| - 1])
  }

  /** `nums` are the consecutive numbers first, first + 1, ..., next - 1. */
  predicate NumberedFrom(nums: seq<nat>, first: int, next: int) {
    |nums| == next - first && forall k :: 0 <= k < |nums| ==> nums[k] == first + k
  }

  // ---- Properties of the formats ----

  /** The decimal text of a number, followed by nothing or by a space, reads as that number. */
  lemma ReadNumberOfDecimal(n: nat, tail: string)
    requires tail == [] || tail[0] == ' '
    ensures ReadNumber(NatToString(n) + tail) == Some(n)
  {
    var digits := NatToString(n);
    DigitRunOfDigits(digits, tail);
    assert (digits + tail)[..|digits|] == digits;
    ParseNatToString(n);
  }

  /** A test line's status word and number, as a consumer reads them. */
  lemma ReadTestPointOf(ok: bool, n: nat, tail: string)
    requires tail == [] || tail[0] == ' '
    ensures ReadTestPoint((if ok then "ok" else "not ok") + " " + (NatToString(n) + tail)) == Some(TestPoint(ok, n))
  {
    var rest := NatToString(n) + tail;
    ReadNumberOfDecimal(n, tail);
    var line := (if ok then "ok" else "not ok") + " " + rest;
    if ok {
      assert line[..3] == "ok " && line[3..] == rest;
      if |line| >= 7 {
        assert line[..7][0] == 'o';
      }
    } else {
      assert line[..7] == "not ok " && line[7..] == rest;
    }
  }

  /** A consumer reads back the status and the number of every test line. */
  lemma OutcomeLineReads(outcome: string, number: nat, special: string, component: string, detail: string)
    requires outcome == "ok" || outcome == "not ok"
    ensures ReadTestPoint(OutcomeLine(outcome, number, special, component, detail)) == Some(TestPoint(outcome == "ok", number))
  {
    var tail := OutcomeTail(special, component, detail);
    var digits := NatToString(number);
    assert OutcomeLine(outcome, number, special, component, detail) == outcome + " " + (digits + tail);
    ReadTestPointOf(outcome == "ok", number, tail);
  }

  /** A consumer reads back the count of a plan line. */
  lemma PlanLineReads(testCount: nat)
    ensures ReadPlan(PlanLine(testCount)) == Some(testCount)
  {
    var line := PlanLine(testCount);
    assert line[3..] == NatToString(testCount);
    ParseNatToString(testCount);
  }

  /** A negative test count (registerNewTests with a negative count) prints a plan no consumer reads as a count. */
  lemma NegativePlanIsUnreadable(testCount: int)
    requires testCount < 0
    ensures PlanLine(testCount) == "1..-" + NatToString(-testCount)
    ensures ReadPlan(PlanLine(testCount)) == None
  {
    assert PlanLine(testCount)[3] == '-';
  }

  /** Plan, bail-out and diagnostic lines are not test lines. */
  lemma OtherLinesAreNotTestPoints(testCount: int, detail: string, diagnostic: string)
    ensures ReadTestPoint(PlanLine(testCount)) == None
    ensures ReadTestPoint(BailOutLine(detail)) == None
    ensures ReadTestPoint(DiagnosticLine(diagnostic)) == None
  {
    assert PlanLine(testCount)[0] == '1';
    assert BailOutLine(detail)[0] == 'B';
    assert DiagnosticLine(diagnostic)[0] == '#';
  }

  /** Appending one line to a run appends the numbers read from that line. */
  lemma TestNumbersAppend(lines: seq<string>, start: nat, line: string)
    requires start <= |lines|
    ensures TestNumbers((lines + [line])[start..]) == TestNumbers(lines[start..]) + NumberOf(line)
  {
    var run := (lines + [line])[start..];
    assert run == lines[start..] + [line];
    assert run[..|run| - 1] == lines[start..];
  }

  /** Appending a test line with the next number keeps a run consecutively numbered. */
  lemma NumberedRunExtend(lines: seq<string>, start: nat, first: int, next: nat, line: string)
    requires start <= |lines| && NumberedFrom(TestNumbers(lines[start..]), first, next)
    requires ReadTestPoint(line).Some? && ReadTestPoint(line).value.number == next
    ensures NumberedFrom(TestNumbers((lines + [line])[start..]), first, next + 1)
  {
    TestNumbersAppend(lines, start, line);
  }

  /** Appending the test line for the next number keeps a run consecutive, and that line reads back. */
  lemma OutcomeExtendsRun(lines: seq<string>, start: nat, first: int, next: nat,
                          outcome: string, special: string, component: string, detail: string)
    requires start <= |lines| && NumberedFrom(TestNumbers(lines[start..]), first, next)
    requires outcome == "ok" || outcome == "not ok"
    ensures var line := OutcomeLine(outcome, next, special, component, detail);
      NumberedFrom(TestNumbers((lines + [line])[start..]), first, next + 1) &&
      ReadTestPoint((lines + [line])[|lines|]) == Some(TestPoint(outcome == "ok", next))
  {
    var line := OutcomeLine(outcome, next, special, component, detail);
    OutcomeLineReads(outcome, next, special, component, detail);
    NumberedRunExtend(lines, start, first, next, line);
  }

  /** Appending a line that is not a test line leaves a run's numbering as it was. */
  lemma NumberedRunKeep(lines: seq<string>, start: nat, first: int, next: int, line: string)
    requires start <= |lines| && NumberedFrom(TestNumbers(lines[start..]), first, next)
    requires ReadTestPoint(line) == None
    ensures NumberedFrom(TestNumbers((lines + [line])[start..]), first, next)
  {
    TestNumbersAppend(lines, start, line);
  }

  class TestAnyProtocolProducer {
    /** Number of tests registered (_testCount). */
    var testCount: int
    /** Number the next test line gets (_currentTest). */
    var currentTest: int
    /** Whether a failure was reported since the failure mark was last cleared (_hasFailed). */
    var hasFailed: bool
    /** Name of the component under test, printed on every test line when non-empty (_component). */
    var component: string
    /** Lines written to standard output. */
    var output: seq<string>
    /** Some(status) once the process has exited with that status. */
    var exitStatus: Option<int>
    /** Where in `output` the current numbering run starts (after the latest begin) ... */
    ghost var runStart: nat
    /** ... and the number the run started from. */
    ghost var firstNumber: nat

    /** The test lines written since the run started are numbered firstNumber, firstNumber + 1, ... */
    ghost predicate Valid()
      reads this
    {
      firstNumber <= currentTest && runStart <= |output| &&
      NumberedFrom(TestNumbers(output[runStart..]), firstNumber, currentTest)
    }

    constructor ()
      ensures Valid()
      ensures testCount == 0 && currentTest == 0 && !hasFailed
      ensures component == "" && output == [] && exitStatus == None
    {
      testCount, currentTest, hasFailed := 0, 0, false;
      component, output, exitStatus := "", [], None;
      runStart, firstNumber := 0, 0;
    }

    /** Registers `count` more tests. */
    method RegisterNewTests(count: int := 1)
      requires Valid() && exitStatus == None
      modifies this`testCount
      ensures Valid()
      ensures testCount == old(testCount) + count
    {
      testCount := testCount + count;
    }

    /**
     Sets the component name; `demangled` is what the C++ ABI demangler makes of
     `name` (None when it fails, and the raw name is kept).
     */
    method SetComponent(name: string, demangled: Option<string>)
      requires Valid() && exitStatus == None
      modifies this`component
      ensures Valid()
      ensures component == match demangled
                           case Some(d) => d
                           case None => name
    {
      match demangled {
        case Some(d) => component := d;
        case None => component := name;
      }
    }

    /** Writes the plan when tests were registered and starts numbering at 1. */
    method Begin()
      requires Valid() && exitStatus == None
      modifies this`output, this`currentTest, this`runStart, this`firstNumber
      ensures Valid()
      ensures output == old(output) + (if testCount != 0 then [PlanLine(testCount)] else [])
      ensures currentTest == 1 && firstNumber == 1 && runStart == |output|
    {
      if testCount != 0 {
        output := output + [PlanLine(testCount)];
      }
      currentTest := 1;
      runStart, firstNumber := |output|, 1;
    }

    /** Ends the set of tests: nothing is written. */
    method End()
      requires Valid() && exitStatus == None
      ensures Valid()
      ensures unchanged(this)
    {
    }

    /** Writes one test line for the current test and moves to the next number. */
    method EmitOutcome(outcome: string, detail: string, special: string := "")
      requires Valid() && exitStatus == None
      requires outcome == "ok" || outcome == "not ok"
      modifies this`output, this`currentTest
      ensures Valid()
      ensures output == old(output) + [OutcomeLine(outcome, old(currentTest), special, component, detail)]
      ensures currentTest == old(currentTest) + 1
      ensures ReadTestPoint(output[|output| - 1]) == Some(TestPoint(outcome == "ok", old(currentTest)))
    {
      var line := OutcomeLine(outcome, currentTest, special, component, detail);
      OutcomeExtendsRun(output, runStart, firstNumber, currentTest, outcome, special, component, detail);
      output := output + [line];
      currentTest := currentTest + 1;
    }

    /** The current test passed. */
    method Success(detail: string := "")
      requires Valid() && exitStatus == None
      modifies this`output, this`currentTest
      ensures Valid()
      ensures output == old(output) + [OutcomeLine("ok", old(currentTest), "", component, detail)]
      ensures currentTest == old(currentTest) + 1
    {
      EmitOutcome("ok", detail);
    }

    /** The current test failed; the failure mark is set. */
    method Failure(detail: string := "")
      requires Valid() && exitStatus == None
      modifies this`output, this`currentTest, this`hasFailed
      ensures Valid()
      ensures output == old(output) + [OutcomeLine("not ok", old(currentTest), "", component, detail)]
      ensures currentTest == old(currentTest) + 1
      ensures hasFailed
    {
      EmitOutcome("not ok", detail);
      hasFailed := true;
    }

    /** The current test is not implemented yet; the failure mark is left alone. */
    method Todo(detail: string := "")
      requires Valid() && exitStatus == None
      modifies this`output, this`currentTest
      ensures Valid()
      ensures output == old(output) + [OutcomeLine("not ok", old(currentTest), "TODO", component, detail)]
      ensures currentTest == old(currentTest) + 1
    {
      EmitOutcome("not ok", detail, "TODO");
    }

    /** The current test was skipped. */
    method Skip(detail: string := "")
      requires Valid() && exitStatus == None
      modifies this`output, this`currentTest
      ensures Valid()
      ensures output == old(output) + [OutcomeLine("ok", old(currentTest), "SKIP", component, detail)]
      ensures currentTest == old(currentTest) + 1
    {
      EmitOutcome("ok", detail, "SKIP");
    }

    /** The tests stop here; numbering and the failure mark are left alone. */
    method BailOut(detail: string := "")
      requires Valid() && exitStatus == None
      modifies this`output
      ensures Valid()
      ensures output == old(output) + [BailOutLine(detail)]
    {
      OtherLinesAreNotTestPoints(0, detail, "");
      NumberedRunKeep(output, runStart, firstNumber, currentTest, BailOutLine(detail));
      output := output + [BailOutLine(detail)];
    }

    /** Success when `condition` holds, failure otherwise. */
    method Evaluate(condition: bool, detail: string := "")
      requires Valid() && exitStatus == None
      modifies this`output, this`currentTest, this`hasFailed
      ensures Valid()
      ensures output == old(output) + [OutcomeLine(if condition then "ok" else "not ok", old(currentTest), "", component, detail)]
      ensures currentTest == old(currentTest) + 1
      ensures hasFailed == (old(hasFailed) || !condition)
    {
      if condition {
        Success(detail);
      } else {
        Failure(detail);
      }
    }

    /** Bails out and exits with status 1 exactly when a failure is marked. */
    method BailOutAndExitIfAnyFailed()
      requires Valid() && exitStatus == None
      modifies this`output, this`exitStatus
      ensures Valid()
      ensures hasFailed ==> output == old(output) + [BailOutLine("to avoid further errors")] && exitStatus == Some(1)
      ensures !hasFailed ==> output == old(output) && exitStatus == None
    {
      if hasFailed {
        BailOut("to avoid further errors");
        exitStatus := Some(1);
      }
    }

    /** Forgets earlier failures (they stay in the output). */
    method ClearFailureMark()
      requires Valid() && exitStatus == None
      modifies this`hasFailed
      ensures Valid()
      ensures !hasFailed
    {
      hasFailed := false;
    }

    /** Writes a diagnostic line; nothing else changes. */
    method EmitDiagnostic(diagnostic: string)
      requires Valid() && exitStatus == None
      modifies this`output
      ensures Valid()
      ensures output == old(output) + [DiagnosticLine(diagnostic)]
    {
      OtherLinesAreNotTestPoints(0, "", diagnostic);
      NumberedRunKeep(output, runStart, firstNumber, currentTest, DiagnosticLine(diagnostic));
      output := output + [DiagnosticLine(diagnostic)];
    }
  }
}
