/** The terraform tools of the workspace server (mcp-server/server.py,
    lines 10-42): the argument vector, the report string and the four fixed
    flag lists.  Running the process is the oracle `Runner`. */
module Terraform {
  import opened Base

  /** What `subprocess.run` captured. */
  datatype Completed = Completed(stdout: string, stderr: string, returncode: int)

  /** Running an argument vector in the workspace: what it printed and its
      exit code, or the message of the exception raised when it could not
      be started. */
  type Runner = seq<string> -> Result<Completed>

  // ---------------------------------------------------------------------
  // str() of an int

  function DigitChar(d: nat): char
    requires d < 10
  {
    ('0' as int + d) as char
  }

  predicate IsDigit(ch: char)
  {
    '0' <= ch <= '9'
  }

  /** The decimal digits of `n`, most significant first. */
  function NatDigits(n: nat): (r: string)
    ensures |r| >= 1 && forall k :: 0 <= k < |r| ==> IsDigit(r[k])
  {
    if n < 10 then [DigitChar(n)] else NatDigits(n / 10) + [DigitChar(n % 10)]
  }

  /** `str(n)` for a Python int. */
  function DecimalString(n: int): string
  {
    if n < 0 then "-" + NatDigits(-n) else NatDigits(n)
  }

  function DigitOf(ch: char): nat
    requires IsDigit(ch)
  {
    ch as int - '0' as int
  }

  /** The number a string of digits denotes. */
  function DigitsValue(s: string): nat
    requires forall k :: 0 <= k < |s| ==> IsDigit(s[k])
  {
    if s == [] then 0 else 10 * DigitsValue(s[..|s| - 1]) + DigitOf(s[|s| - 1])
  }

  /** `int(s)` for an optionally signed string of digits. */
  function ParseDecimal(s: string): Option<int>
  {
    if |s| > 1 && s[0] == '-' && forall k :: 1 <= k < |s| ==> IsDigit(s[k]) then Some(-(DigitsValue(s[1..]) as int))
    else if |s| > 0 && forall k :: 0 <= k < |s| ==> IsDigit(s[k]) then Some(DigitsValue(s))
    else None
  }

  lemma {:induction false} DigitsRoundTrip(n: nat)
    ensures DigitsValue(NatDigits(n)) == n
    decreases n
  {
    if n >= 10 {
      DigitsRoundTrip(n / 10);
      var s := NatDigits(n);
      assert s[..|s| - 1] == NatDigits(n / 10);
    }
  }

  /** The exit code written in a report can be read back. */
  lemma DecimalRoundTrip(n: int)
    ensures ParseDecimal(DecimalString(n)) == Some(n)
  {
    if n < 0 {
      DigitsRoundTrip(-n);
      assert DecimalString(n)[1..] == NatDigits(-n);
    } else {
      DigitsRoundTrip(n);
    }
  }

  // ---------------------------------------------------------------------
  // The report (line 24) and the launch error (lines 25-26)

  /** Line 24: stdout, stderr and the exit code under their labels, in that order. */
  function Report(c: Completed): string
  {
    "STDOUT:\n" + c.stdout + "\n\nSTDERR:\n" + c.stderr + "\n\nExit Code: " + DecimalString(c.returncode)
  }

  /** What `run_terraform_command` returns for what the subprocess did. */
  function ReportFor(command: string, outcome: Result<Completed>): string
  {
    match outcome
    case Ok(c) => Report(c)
    case Err(m) => "Error running terraform " + command + ": " + m
  }

  /** The text after the last space. */
  function AfterLastSpace(s: string): (r: string)
    ensures |r| <= |s| && r == s[|s| - |r|..] && ' ' !in r
  {
    if s == [] || s[|s| - 1] == ' ' then []
    else AfterLastSpace(s[..|s| - 1]) + [s[|s| - 1]]
  }

  /** The exit code a reader finds at the end of a report. */
  function ExitCodeOf(report: string): Option<int>
  {
    ParseDecimal(AfterLastSpace(report))
  }

  lemma {:induction false} AfterLastSpaceOf(a: string, b: string)
    requires ' ' !in b
    ensures AfterLastSpace(a + " " + b) == b
    decreases |b|
  {
    if b == [] {
      assert a + " " + b == a + " ";
    } else {
      assert (a + " " + b)[..|a + " " + b| - 1] == a + " " + b[..|b| - 1];
      AfterLastSpaceOf(a, b[..|b| - 1]);
    }
  }

  /** The exit code is the last thing in a report and reads back exactly,
      whatever stdout and stderr hold. */
  lemma ReportExitCode(c: Completed)
    ensures ExitCodeOf(Report(c)) == Some(c.returncode)
  {
    var head := "STDOUT:\n" + c.stdout + "\n\nSTDERR:\n" + c.stderr + "\n\nExit Code:";
    assert Report(c) == head + " " + DecimalString(c.returncode);
    assert ' ' !in DecimalString(c.returncode) by {
      var d := DecimalString(c.returncode);
      assert forall k :: 0 <= k < |d| ==> d[k] == '-' || IsDigit(d[k]);
    }
    AfterLastSpaceOf(head, DecimalString(c.returncode));
    DecimalRoundTrip(c.returncode);
  }

  /** A report of a finished process, and only that, starts with the stdout label. */
  lemma ReportOrLaunchError(command: string, outcome: Result<Completed>)
    ensures (ReportFor(command, outcome)[..8] == "STDOUT:\n") <==> outcome.Ok?
  {
    if outcome.Err? {
      assert ReportFor(command, outcome)[0] == 'E';
    }
  }

  // ---------------------------------------------------------------------
  // Running a command (lines 10-26) and the four tools (lines 27-42)

  /** Lines 12-14: `["terraform", command]`, extended by `args` when they are given. */
  method BuildArgv(command: string, args: Option<seq<string>>) returns (cmd: seq<string>)
    ensures |cmd| >= 2 && cmd[0] == "terraform" && cmd[1] == command
    ensures args.Some? ==> cmd[2..] == args.value
    ensures args.None? ==> |cmd| == 2
  {
    cmd := ["terraform", command];
    if args.Some? && args.value != [] {
      cmd := cmd + args.value;
    }
  }

  function Flags(args: Option<seq<string>>): seq<string>
  {
    if args.Some? then args.value else []
  }

  /** `run_terraform_command`: the report for the argument vector, or the
      launch error; never an exception. */
  method RunCommand(run: Runner, command: string, args: Option<seq<string>>) returns (report: string)
    ensures report == ReportFor(command, run(["terraform", command] + Flags(args)))
  {
    var cmd := BuildArgv(command, args);
    assert cmd == ["terraform", command] + Flags(args);
    var outcome := run(cmd);
    match outcome
    case Ok(c) =>
      report := Report(c);
    case Err(m) =>
      report := "Error running terraform " + command + ": " + m;
  }

  method TerraformInit(run: Runner) returns (report: string)
    ensures report == ReportFor("init", run(["terraform", "init"]))
  {
    report := RunCommand(run, "init", None);
    assert ["terraform", "init"] + Flags(None) == ["terraform", "init"];
  }

  method TerraformPlan(run: Runner) returns (report: string)
    ensures report == ReportFor("plan", run(["terraform", "plan", "-no-color"]))
  {
    report := RunCommand(run, "plan", Some(["-no-color"]));
    assert ["terraform", "plan"] + Flags(Some(["-no-color"])) == ["terraform", "plan", "-no-color"];
  }

  method TerraformApply(run: Runner) returns (report: string)
    ensures report == ReportFor("apply", run(["terraform", "apply", "-auto-approve", "-no-color"]))
  {
    report := RunCommand(run, "apply", Some(["-auto-approve", "-no-color"]));
    assert ["terraform", "apply"] + Flags(Some(["-auto-approve", "-no-color"])) == ["terraform", "apply", "-auto-approve", "-no-color"];
  }

  method TerraformShow(run: Runner) returns (report: string)
    ensures report == ReportFor("show", run(["terraform", "show", "-no-color"]))
  {
    report := RunCommand(run, "show", Some(["-no-color"]));
    assert ["terraform", "show"] + Flags(Some(["-no-color"])) == ["terraform", "show", "-no-color"];
  }
}
