/** The `--workflow=` option of src/utils/commandLine.ts. */
module CommandLine {
  import opened Wrappers
  import opened Strings
  import opened Arrays

  const WorkflowFlag := "--workflow="

  predicate IsWorkflowArg(arg: string)
  {
    StartsWith(arg, WorkflowFlag)
  }

  /** `arg.replace('--workflow=', '')` on an argument that starts with the flag: the text after it. */
  function WorkflowName(arg: string): (name: string)
    requires IsWorkflowArg(arg)
    ensures arg == WorkflowFlag + name
  {
    var r := ReplaceFirst(arg, WorkflowFlag, "");
    assert OccursAt(arg, WorkflowFlag, 0);
    var i := IndexOf(arg, WorkflowFlag);
    assert i == 0;
    assert arg == WorkflowFlag + arg[|WorkflowFlag|..];
    r
  }

  /**
   * `parseCommandLineArgs` over an explicit `process.argv`: the name given by
   * the first argument from index 2 on that starts with `--workflow=`, or
   * `None` (the source's `null`) when there is none.
   */
  function ParseCommandLineArgs(argv: seq<string>): (r: Option<string>)
    ensures r.None? <==> forall i | 2 <= i < |argv| :: !IsWorkflowArg(argv[i])
    ensures r.Some? ==> exists i | 2 <= i < |argv| ::
      argv[i] == WorkflowFlag + r.value && forall j | 2 <= j < i :: !IsWorkflowArg(argv[j])
  {
    var args := if |argv| <= 2 then [] else argv[2..];
    match FindIndex(args, IsWorkflowArg, 0)
    case None =>
      assert forall i | 2 <= i < |argv| :: argv[i] == args[i - 2];
      None
    case Some(k) =>
      var name := WorkflowName(args[k]);
      assert argv[k + 2] == args[k];
      assert forall j | 2 <= j < k + 2 :: argv[j] == args[j - 2];
      Some(name)
  }

  // ---------------------------------------------------------------- properties

  /** The node binary and the script path are never read. */
  lemma FirstTwoIgnored(argv: seq<string>, other: seq<string>)
    requires |argv| >= 2 && |other| >= 2 && argv[2..] == other[2..]
    ensures ParseCommandLineArgs(argv) == ParseCommandLineArgs(other)
  {
    assert forall i | 2 <= i < |argv| :: argv[i] == other[i] by {
      forall i | 2 <= i < |argv| ensures argv[i] == other[i] {
        assert argv[2..][i - 2] == other[2..][i - 2];
      }
    }
  }

  /** Once an argument has named a workflow, arguments after it do not change the result. */
  lemma LaterArgumentsIgnored(argv: seq<string>, more: seq<string>)
    requires ParseCommandLineArgs(argv).Some?
    ensures ParseCommandLineArgs(argv + more) == ParseCommandLineArgs(argv)
  {
    var name := ParseCommandLineArgs(argv).value;
    var i :| 2 <= i < |argv| && argv[i] == WorkflowFlag + name && forall j | 2 <= j < i :: !IsWorkflowArg(argv[j]);
    var all := argv + more;
    assert all[i] == argv[i];
    assert IsWorkflowArg(all[i]);
    var r := ParseCommandLineArgs(all);
    var k :| 2 <= k < |all| && all[k] == WorkflowFlag + r.value && forall j | 2 <= j < k :: !IsWorkflowArg(all[j]);
    assert StartsWith(all[k], WorkflowFlag);
    assert k == i;
    assert WorkflowFlag + r.value == WorkflowFlag + name;
    assert r.value == (WorkflowFlag + r.value)[|WorkflowFlag|..];
  }

  /** An argument `--workflow=<name>` right after the script path is read back as `name`. */
  lemma FlagRoundTrip(node: string, script: string, name: string, rest: seq<string>)
    ensures ParseCommandLineArgs([node, script, WorkflowFlag + name] + rest) == Some(name)
  {
    var argv := [node, script, WorkflowFlag + name] + rest;
    assert argv[2] == WorkflowFlag + name;
    assert IsWorkflowArg(argv[2]);
    var r := ParseCommandLineArgs(argv);
    var k :| 2 <= k < |argv| && argv[k] == WorkflowFlag + r.value && forall j | 2 <= j < k :: !IsWorkflowArg(argv[j]);
    assert k == 2;
    assert r.value == (WorkflowFlag + r.value)[|WorkflowFlag|..];
    assert name == (WorkflowFlag + name)[|WorkflowFlag|..];
  }
}
