/**
 * The step logger of src/utils/workflowLogger.ts: a run directory per
 * workflow run, and one Markdown file per executed step in it. The file
 * system is the one the file node uses; the clock is the ISO text
 * `new Date().toISOString()` would give, passed in.
 */
module StepLogger {
  import opened Wrappers
  import opened Strings
  import opened Records
  import opened Values
  import opened Json
  import Files

  /** The characters `safeName` keeps: `[a-zA-Z0-9_-]`. */
  predicate Allowed(c: char)
  {
    'a' <= c <= 'z' || 'A' <= c <= 'Z' || '0' <= c <= '9' || c == '_' || c == '-'
  }

  /** `value.replace(/[^a-zA-Z0-9_-]/g, '_')` */
  function SafeName(value: string): (r: string)
    ensures |r| == |value|
    ensures forall i | 0 <= i < |r| :: Allowed(r[i])
    ensures forall i | 0 <= i < |r| :: r[i] == (if Allowed(value[i]) then value[i] else '_')
  {
    seq(|value|, i requires 0 <= i < |value| => if Allowed(value[i]) then value[i] else '_')
  }

  /** `toISOString().replace(/[:.]/g, '-')` */
  function Timestamp(iso: string): (r: string)
    ensures |r| == |iso| && ':' !in r && '.' !in r
  {
    seq(|iso|, i requires 0 <= i < |iso| => if iso[i] == ':' || iso[i] == '.' then '-' else iso[i])
  }

  /** `a || b` for strings. */
  function Or(a: string, b: string): string
  {
    if a != "" then a else b
  }

  const DefaultBaseDir := "./temp/workflow-logs"

  /** The directory `startRun` creates: `<baseDir>/<workflow>/<run label or timestamp>`. */
  function RunDir(baseDir: string, workflowName: string, runLabel: Option<string>, iso: string): (r: string)
    ensures StartsWith(r, baseDir)
    ensures EndsWith(r, SafeName(Or(runLabel.GetOr(""), Timestamp(iso))))
  {
    var workflowDir := Files.JoinPath(baseDir, SafeName(Or(workflowName, "workflow")));
    var r := Files.JoinPath(workflowDir, SafeName(Or(runLabel.GetOr(""), Timestamp(iso))));
    assert r[..|baseDir|] == r[..|workflowDir|][..|baseDir|];
    r
  }

  /** `String(n).padStart(2, '0')` */
  function TwoDigits(n: int): string
  {
    PadStart(IntToString(n), 2, '0')
  }

  /** The name of a step's log file: `<index, two digits>-<safe key or step-<index>>.md`. */
  function StepFileName(stepIndex: int, stepKey: string): (r: string)
    ensures StartsWith(r, TwoDigits(stepIndex) + "-") && EndsWith(r, ".md")
  {
    var r := TwoDigits(stepIndex) + "-" + SafeName(Or(stepKey, "step-" + IntToString(stepIndex))) + ".md";
    assert r[..|TwoDigits(stepIndex) + "-"|] == TwoDigits(stepIndex) + "-";
    assert r[|r| - 3..] == ".md";
    r
  }

  /** What `logStep` is given. */
  datatype Payload = Payload(stepIndex: int, stepKey: string, stepName: Option<string>, input: Value,
                             structuredOutput: Value, rawOutput: Value, globalStateSnapshot: Value)

  /**
   * `formatJson`. `serialize` is `JSON.stringify(value, null, 2)`: the text,
   * `None` for a value it leaves out, or the error it throws. A thrown error
   * is replaced by the text of an error object, so the result is a text
   * whenever serializing is attempted at all.
   */
  function FormatJson(value: Value, serialize: Value -> Result<Option<string>>): (r: Option<string>)
    ensures serialize(value).Ok? ==> r == serialize(value).value
    ensures serialize(value).Err? ==> r.Some?
  {
    match serialize(value)
    case Ok(text) => text
    case Err(e) =>
      Stringify(Obj(Rec(["error", "details"], map["error" := Str("Unable to serialize value"), "details" := Str(e)])))
  }

  /** The lines of a step's log file; `Array.join` writes a missing text as ''. */
  function LogContent(p: Payload, executedAt: string, serialize: Value -> Result<Option<string>>): (r: string)
    ensures StartsWith(r, "# Step " + TwoDigits(p.stepIndex) + " - " + p.stepName.GetOr(p.stepKey) + "\n")
  {
    var lines := [
      "# Step " + TwoDigits(p.stepIndex) + " - " + p.stepName.GetOr(p.stepKey),
      "",
      "- Step key: " + p.stepKey,
      "- Step name: " + p.stepName.GetOr("none"),
      "- Executed at: " + executedAt,
      "",
      "## Input", "```json", FormatJson(p.input, serialize).GetOr(""), "```",
      "",
      "## Output (structured)", "```json", FormatJson(p.structuredOutput, serialize).GetOr(""), "```",
      "",
      "## Output (raw)", "```json", FormatJson(p.rawOutput, serialize).GetOr(""), "```",
      "",
      "## Global State Snapshot", "```json", FormatJson(p.globalStateSnapshot, serialize).GetOr(""), "```",
      ""];
    var r := Join(lines, "\n");
    assert r == lines[0] + "\n" + Join(lines[1..], "\n");
    assert r[..|lines[0] + "\n"|] == lines[0] + "\n";
    r
  }

  /** `fs.writeFileSync`: the parent directory must exist, and the path must not be a directory. */
  function WriteFile(fs: Files.Tree, path: string, content: string): (r: Result<Files.Tree>)
    ensures r.Ok? ==> path in r.value && r.value[path] == Files.RegularFile(Ok(content))
    ensures r.Ok? ==> r.value.Keys == fs.Keys + {path}
    ensures r.Ok? ==> forall q | q in fs && q != path && q != Files.Dirname(path) :: r.value[q] == fs[q]
  {
    var dir := Files.Dirname(path);
    if Files.IsRoot(path) || (path in fs && fs[path].Directory?) then Err(Files.IsADirectory(path))
    else if !Files.IsRoot(dir) && !(dir in fs && fs[dir].Directory?) then
      Err("ENOENT: no such file or directory, open '" + path + "'")
    else Ok(Files.Link(fs, path, Files.RegularFile(Ok(content))))
  }

  /** The file system after `logStep`: unchanged without a run or when the write fails (a warning only). */
  function Logged(fs: Files.Tree, runDir: Option<string>, p: Payload, executedAt: string,
                  serialize: Value -> Result<Option<string>>): (r: Files.Tree)
    ensures runDir.None? || runDir.value == "" ==> r == fs
    ensures fs.Keys <= r.Keys
    ensures r == fs || (runDir.Some? &&
      var path := Files.JoinPath(runDir.value, StepFileName(p.stepIndex, p.stepKey));
      path in r && r[path] == Files.RegularFile(Ok(LogContent(p, executedAt, serialize))))
  {
    if runDir.None? || runDir.value == "" then fs
    else
      match WriteFile(fs, Files.JoinPath(runDir.value, StepFileName(p.stepIndex, p.stepKey)),
                      LogContent(p, executedAt, serialize))
      case Ok(fs1) => fs1
      case Err(_) => fs
  }

  class WorkflowStepLogger {
    const baseDir: string
    var currentRunDir: Option<string>

    /** `baseDir` defaults to `./temp/workflow-logs` when it is not passed; no run is active. */
    constructor (baseDir: Option<string>)
      ensures this.baseDir == baseDir.GetOr(DefaultBaseDir) && currentRunDir == None
    {
      this.baseDir := baseDir.GetOr(DefaultBaseDir);
      currentRunDir := None;
    }

    /**
     * `startRun`: creates the run directory and its parents and makes it the
     * current run. A failing `mkdirSync` throws out of `startRun` and leaves
     * the logger as it was.
     */
    method StartRun(workflowName: string, runLabel: Option<string>, iso: string, files: Files.FileSystem)
      returns (r: Result<string>)
      modifies this, files
      ensures var dir := RunDir(baseDir, workflowName, runLabel, iso);
        match Files.MakeDirs(old(files.entries), dir)
        case Ok(fs) => r == Ok(dir) && currentRunDir == Some(dir) && files.entries == fs
        case Err(e) => r == Err(e) && currentRunDir == old(currentRunDir) && files.entries == old(files.entries)
    {
      var runDir := RunDir(baseDir, workflowName, runLabel, iso);
      var made := Files.MakeDirs(files.entries, runDir);
      if made.Err? {
        return Err(made.error);
      }
      files.entries := made.value;
      currentRunDir := Some(runDir);
      r := Ok(runDir);
    }

    /** `logStep`: writes the step's file into the current run, if there is one. */
    method LogStep(p: Payload, executedAt: string, serialize: Value -> Result<Option<string>>, files: Files.FileSystem)
      modifies files
      ensures files.entries == Logged(old(files.entries), currentRunDir, p, executedAt, serialize)
    {
      if currentRunDir.None? || currentRunDir.value == "" {
        return;
      }
      var path := Files.JoinPath(currentRunDir.value, StepFileName(p.stepIndex, p.stepKey));
      var written := WriteFile(files.entries, path, LogContent(p, executedAt, serialize));
      if written.Ok? {
        files.entries := written.value;
      }
    }

    /** `endRun` */
    method EndRun()
      modifies this
      ensures currentRunDir == None
    {
      currentRunDir := None;
    }
  }

  // ---------------------------------------------------------------- properties

  /** `safeName` leaves a safe name as it is, so applying it twice changes nothing. */
  lemma SafeNameIdempotent(value: string)
    ensures SafeName(SafeName(value)) == SafeName(value)
  {
    var once := SafeName(value);
    assert forall i | 0 <= i < |once| :: SafeName(once)[i] == once[i];
  }

  /** A name made only of allowed characters is its own safe name. */
  lemma SafeNameKeepsAllowed(value: string)
    requires forall i | 0 <= i < |value| :: Allowed(value[i])
    ensures SafeName(value) == value
  {
    assert forall i | 0 <= i < |value| :: SafeName(value)[i] == value[i];
  }

  /** Without an active run, logging a step leaves the file system as it was. */
  lemma NoRunNoLog(fs: Files.Tree, p: Payload, executedAt: string, serialize: Value -> Result<Option<string>>)
    ensures Logged(fs, None, p, executedAt, serialize) == fs
  {
  }

  /** Logging a step adds at most its own file to the run directory and changes nothing else. */
  lemma LogStepWritesOneFile(fs: Files.Tree, runDir: string, p: Payload, executedAt: string,
                             serialize: Value -> Result<Option<string>>)
    ensures var path := Files.JoinPath(runDir, StepFileName(p.stepIndex, p.stepKey));
      var r := Logged(fs, Some(runDir), p, executedAt, serialize);
      r == fs || (r[path] == Files.RegularFile(Ok(LogContent(p, executedAt, serialize)))
                  && r.Keys == fs.Keys + {path}
                  && forall q | q in fs && q != path && q != Files.Dirname(path) :: r[q] == fs[q])
  {
  }

  /** The two-digit prefix tells step indices apart: different steps never share a log file. */
  lemma StepFileNamesDistinct(i: nat, j: nat, keyI: string, keyJ: string)
    requires i != j
    ensures StepFileName(i, keyI) != StepFileName(j, keyJ)
  {
    var a, b := TwoDigits(i), TwoDigits(j);
    TwoDigitsInjective(i, j);
    var ni, nj := StepFileName(i, keyI), StepFileName(j, keyJ);
    if ni == nj {
      assert StartsWith(ni, a + "-") && StartsWith(ni, b + "-");
      DigitsThenDash(a, b, ni);
    }
  }

  lemma TwoDigitsInjective(i: nat, j: nat)
    requires i != j
    ensures TwoDigits(i) != TwoDigits(j)
  {
    var a, b := TwoDigits(i), TwoDigits(j);
    if i < 10 {
      OneDigitPadded(i);
    }
    if j < 10 {
      OneDigitPadded(j);
    }
    if i >= 10 && j >= 10 && a == b {
      NatToStringInjective(i, j);
    }
  }

  /** A one-digit index gets a leading '0'. */
  lemma OneDigitPadded(n: nat)
    requires n < 10
    ensures TwoDigits(n) == ['0', Digit(n)]
  {
    var s := IntToString(n);
    assert s == [Digit(n)];
    assert TwoDigits(n)[1..] == s;
  }

  lemma CharOfPrefix(s: string, p: string, k: nat)
    requires StartsWith(s, p) && k < |p|
    ensures s[k] == p[k]
  {
    assert s[..|p|][k] == s[k];
  }

  /** Two digit strings that both prefix a name up to a '-' are the same. */
  lemma DigitsThenDash(a: string, b: string, s: string)
    requires forall k | 0 <= k < |a| :: '0' <= a[k] <= '9'
    requires forall k | 0 <= k < |b| :: '0' <= b[k] <= '9'
    requires StartsWith(s, a + "-") && StartsWith(s, b + "-")
    ensures a == b
  {
    if |a| < |b| {
      CharOfPrefix(s, a + "-", |a|);
      CharOfPrefix(s, b + "-", |a|);
      assert false;
    } else if |b| < |a| {
      CharOfPrefix(s, a + "-", |b|);
      CharOfPrefix(s, b + "-", |b|);
      assert false;
    } else {
      assert a == s[..|a|] && b == s[..|b|];
    }
  }
}
