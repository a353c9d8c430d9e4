/**
 * The workflow engine (src/types/workflow/Workflow.ts): a `Workflow` object
 * runs its steps one after another in the order of their keys, validating
 * each, resolving its input, running it and recording its input and output
 * in an append-only global state.
 *
 * The outside world is given as data (`Oracles`): the results the code
 * steps' `run` functions return (or the errors they throw), in the order
 * the code steps run, and the model replies and human answers that input
 * resolution and the agent steps consume, in the order they are asked for.
 */
module Engine {
  import opened Wrappers
  import opened Records
  import opened Values
  import opened Zod
  import opened StructuredData
  import opened Steps
  import opened Input
  import StepAgent

  /** What the outside world will supply, in order. */
  datatype Oracles = Oracles(runs: seq<Result<Value>>, replies: seq<StepAgent.Reply>, answers: seq<string>)

  /** What `execute` ends with: the global state it returns, a thrown error, process exit, or no end. */
  datatype Outcome =
    | Completed(state: Rec<GlobalEntry>)
    | Failed(message: string)
    | Terminated(message: string)
    | Unfinished

  /** One step: its recorded input and output and what is left of the oracles, or how it ended. */
  datatype StepResult =
    | StepDone(input: StepInput, output: SData, rest: Oracles)
    | StepFailed(message: string)
    | StepTerminated(message: string)
    | StepUnfinished

  /** A run: how it ended, the global state and `this.lastStepResult` after it, and the steps it completed. */
  datatype Run = Run(outcome: Outcome, global: Rec<GlobalEntry>, lastStepResult: SData, done: nat)

  const DataObjectRequired := "inputDataObject is required when step.inputSource is InputSource.DataObject"
  const SchemaRequired := "inputSchema is required when step.inputSource is not InputSource.Global"
  const UnknownStepType := "Unknown step type: "

  /** The values code steps return are JavaScript values: their objects have distinct keys. */
  predicate OraclesOk(env: Oracles)
  {
    forall i | 0 <= i < |env.runs| :: env.runs[i].Ok? && env.runs[i].value.Obj? ==> Valid(env.runs[i].value.rec)
  }

  /** Every step can be resolved: schemas and data objects are well-formed records. */
  predicate StepsOk(steps: Rec<Step>)
  {
    Valid(steps) && forall k | k in steps.fields :: WellFormedStep(steps.fields[k])
  }

  /** `s[n..]`, or nothing when `s` is shorter. */
  function Drop<T>(s: seq<T>, n: nat): (r: seq<T>)
    ensures n <= |s| ==> r == s[n..]
  {
    if n <= |s| then s[n..] else []
  }

  /** validateStep: the error it throws, if any. */
  function ValidateStep(step: Step): (r: Option<string>)
    ensures r == Some(DataObjectRequired)
      <==> step.inputSource == Some(Tag(DataObject)) && !Truthy(step.inputDataObject)
    ensures r == Some(SchemaRequired)
      <==> !(step.inputSource == Some(Tag(DataObject)) && !Truthy(step.inputDataObject))
           && step.inputSource != Some(Tag(Global)) && step.inputSchema.None?
    ensures r.None? <==>
      (step.inputSource == Some(Tag(DataObject)) ==> Truthy(step.inputDataObject))
      && (step.inputSource == Some(Tag(Global)) || step.inputSchema.Some?)
  {
    if step.inputSource == Some(Tag(DataObject)) && !Truthy(step.inputDataObject) then Some(DataObjectRequired)
    else if step.inputSource != Some(Tag(Global)) && step.inputSchema.None? then Some(SchemaRequired)
    else None
  }

  /** The answers input resolution consumed: one per schema key for a `USER_INPUT` step. */
  function InputAnswers(step: Step): nat
  {
    if step.inputSource == Some(Tag(UserInput)) && step.inputSchema.Some? && step.inputSchema.value.ZObject?
    then |step.inputSchema.value.shape.keys|
    else 0
  }

  /**
   * The one object `{ step, stepInput }` the engine passes to
   * executeAgentStep as its step argument; its contents are never read.
   */
  const AgentArgument := Obj(Rec(["step", "stepInput"], map["step" := Host("Step"), "stepInput" := Host("StepInput")]))

  /** The end of a step once its result value is known: rawDataObjectToStructuredData. */
  function Record(input: StepInput, result: Value, rest: Oracles): (r: StepResult)
    requires result.Obj? ==> Valid(result.rec)
    ensures r.StepDone? ==> FromRaw(result) == Ok(r.output) && Valid(r.output) && r.rest == rest
    ensures r.StepFailed? <==> Nullish(result)
    ensures r.StepDone? || r.StepFailed?
  {
    match FromRaw(result)
    case Err(e) => StepFailed(e)
    case Ok(output) => StepDone(input, output, rest)
  }

  /** One pass of the loop body of `execute` for `step`, given the state before it. */
  function StepRun(step: Step, global: Rec<GlobalEntry>, last: SData, env: Oracles): (r: StepResult)
    requires WellFormedStep(step) && Valid(last) && OraclesOk(env)
    ensures r.StepDone? ==> Valid(r.output) && OraclesOk(r.rest)
  {
    match ValidateStep(step)
    case Some(m) => StepFailed(m)
    case None =>
      match ResolveInput(global, step, last, env.answers)
      case Thrown(m) => StepFailed(m)
      case Waiting => StepUnfinished
      case Ready(input) =>
        var answers := Drop(env.answers, InputAnswers(step));
        if IsCodeStep(step) then
          if env.runs == [] then StepUnfinished
          else
            match env.runs[0]
            case Err(m) => StepFailed(m)
            case Ok(v) => Record(input, v, env.(runs := env.runs[1..], answers := answers))
        else if IsAgentStep(step) then
          match StepAgent.Execute(AgentArgument, Undefined, env.replies, answers)
          case Terminated(m) => StepTerminated(m)
          case Unfinished => StepUnfinished
          case Completed(_, _, _, calls, asked) =>
            var o := StepAgent.Execute(AgentArgument, Undefined, env.replies, answers);
            Record(input, StepAgent.ResultValue(o),
                   env.(replies := Drop(env.replies, calls), answers := Drop(answers, |asked|)))
        else StepFailed(UnknownStepType)
  }

  /**
   * The loop of `execute` over the remaining `keys`, from the global state,
   * `this.lastStepResult`, the local last result and the oracles so far,
   * with `done` steps completed.
   */
  function RunFrom(steps: Rec<Step>, keys: seq<string>, global: Rec<GlobalEntry>, thisLast: SData,
                   last: SData, env: Oracles, done: nat): (r: Run)
    requires StepsOk(steps) && Valid(global) && Valid(last) && OraclesOk(env)
    requires forall i | 0 <= i < |keys| :: keys[i] in steps.fields
    ensures done <= r.done <= done + |keys|
    ensures r.outcome.Completed? <==> r.done == done + |keys|
    ensures r.outcome.Completed? ==> r.outcome.state == r.global
    ensures r.done == done ==> r.global == global && r.lastStepResult == thisLast
    decreases |keys|
  {
    if keys == [] then Run(Completed(global), global, thisLast, done)
    else
      match StepRun(steps.fields[keys[0]], global, last, env)
      case StepFailed(m) => Run(Failed(m), global, thisLast, done)
      case StepTerminated(m) => Run(Terminated(m), global, thisLast, done)
      case StepUnfinished => Run(Unfinished, global, thisLast, done)
      case StepDone(input, output, rest) =>
        RunFrom(steps, keys[1..], Put(global, keys[0], GlobalEntry(input, output)), output, output, rest, done + 1)
  }

  /** `execute` on a workflow whose state is `global` and `thisLast`. */
  function RunWorkflow(steps: Rec<Step>, global: Rec<GlobalEntry>, thisLast: SData, env: Oracles): (r: Run)
    requires StepsOk(steps) && Valid(global) && OraclesOk(env)
    ensures r.done <= |steps.keys|
    ensures r.outcome.Completed? <==> r.done == |steps.keys|
    ensures r.outcome.Completed? ==> r.outcome.state == r.global
  {
    forall i | 0 <= i < |steps.keys| ensures steps.keys[i] in steps.fields {
      KeyAt(steps, i);
    }
    RunFrom(steps, steps.keys, global, thisLast, Empty(), env, 0)
  }

  /** The loop body of `execute` as the code runs it, calling getStepInput and executeAgentStep. */
  method RunStep(step: Step, global: Rec<GlobalEntry>, last: SData, env: Oracles) returns (r: StepResult)
    requires WellFormedStep(step) && Valid(last) && OraclesOk(env)
    ensures r == StepRun(step, global, last, env)
  {
    var invalid := ValidateStep(step);
    if invalid.Some? {
      return StepFailed(invalid.value);
    }
    var resolved := GetStepInput(global, step, last, env.answers);
    if resolved.Thrown? {
      return StepFailed(resolved.message);
    }
    if resolved.Waiting? {
      return StepUnfinished;
    }
    var answers := Drop(env.answers, InputAnswers(step));
    if IsCodeStep(step) {
      if env.runs == [] {
        return StepUnfinished;
      }
      if env.runs[0].Err? {
        return StepFailed(env.runs[0].error);
      }
      r := Record(resolved.input, env.runs[0].value, env.(runs := env.runs[1..], answers := answers));
    } else if IsAgentStep(step) {
      var o := StepAgent.ExecuteAgentStep(AgentArgument, Undefined, env.replies, answers);
      if o.Terminated? {
        return StepTerminated(o.message);
      }
      if o.Unfinished? {
        return StepUnfinished;
      }
      r := Record(resolved.input, StepAgent.ResultValue(o),
                  env.(replies := Drop(env.replies, o.calls), answers := Drop(answers, |o.asked|)));
    } else {
      r := StepFailed(UnknownStepType);
    }
  }

  /**
   * `global` and `thisLast` are `global0` and `last0` after the first `n`
   * of `keys` completed: the global state holds their keys besides its
   * own, keeps every other entry, and when `global0` was empty lists
   * exactly those keys in order; `thisLast` is the output stored for the
   * last of them, or still `last0` when none completed.
   */
  ghost predicate Recorded(global0: Rec<GlobalEntry>, last0: SData, keys: seq<string>, n: nat,
                           global: Rec<GlobalEntry>, thisLast: SData)
    requires n <= |keys|
  {
    (forall k :: k in global.fields <==> k in global0.fields || k in keys[..n])
    && (forall k | k in global0.fields && k !in keys[..n] :: k in global.fields && global.fields[k] == global0.fields[k])
    && (global0.keys == [] ==> global.keys == keys[..n])
    && (n == 0 ==> thisLast == last0)
    && (n > 0 ==> keys[n - 1] in global.fields && thisLast == global.fields[keys[n - 1]].output)
  }

  /** Storing the entry of the next key, whose output becomes the last result, records one more key. */
  lemma RecordedPut(global0: Rec<GlobalEntry>, last0: SData, keys: seq<string>, n: nat,
                    global: Rec<GlobalEntry>, thisLast: SData, e: GlobalEntry)
    requires Distinct(keys) && n < |keys| && Valid(global)
    requires Recorded(global0, last0, keys, n, global, thisLast)
    ensures Recorded(global0, last0, keys, n + 1, Put(global, keys[n], e), e.output)
  {
    PutKeys(global0.fields, keys, n, global, e);
    if global0.keys == [] {
      NextKey(keys, n);
      assert keys[n] !in global.fields;
    }
  }

  /** The first `n + 1` keys are the first `n` and a new one. */
  lemma NextKey(keys: seq<string>, n: nat)
    requires Distinct(keys) && n < |keys|
    ensures keys[..n + 1] == keys[..n] + [keys[n]] && keys[n] !in keys[..n]
  {
    assert keys[..n + 1] == keys[..n] + [keys[n]];
    assert forall j | 0 <= j < n :: keys[j] != keys[n];
  }

  /** Storing under the next key adds that key and keeps every entry outside the keys done. */
  lemma PutKeys(fields0: map<string, GlobalEntry>, keys: seq<string>, n: nat, global: Rec<GlobalEntry>, e: GlobalEntry)
    requires n < |keys| && Valid(global)
    requires forall x :: x in global.fields <==> x in fields0 || x in keys[..n]
    requires forall x | x in fields0 && x !in keys[..n] :: x in global.fields && global.fields[x] == fields0[x]
    ensures var g := Put(global, keys[n], e);
      (forall x :: x in g.fields <==> x in fields0 || x in keys[..n + 1])
      && (forall x | x in fields0 && x !in keys[..n + 1] :: x in g.fields && g.fields[x] == fields0[x])
  {
    var g := Put(global, keys[n], e);
    assert keys[..n + 1] == keys[..n] + [keys[n]];
    forall x ensures x in g.fields <==> x in fields0 || x in keys[..n + 1] {
      assert x in keys[..n + 1] <==> x in keys[..n] || x == keys[n];
    }
  }

  /** The loop of `execute` from the state `global0`, `last0`; returns the outcome and the new state. */
  method RunSteps(steps: Rec<Step>, global0: Rec<GlobalEntry>, last0: SData, env: Oracles)
    returns (r: Outcome, global: Rec<GlobalEntry>, thisLast: SData)
    requires StepsOk(steps) && Valid(global0) && Valid(last0) && OraclesOk(env)
    ensures Valid(global) && Valid(thisLast)
    ensures var run := RunWorkflow(steps, global0, last0, env);
      r == run.outcome && global == run.global && thisLast == run.lastStepResult
    ensures var run := RunWorkflow(steps, global0, last0, env);
      run.done <= |steps.keys| && Recorded(global0, last0, steps.keys, run.done, global, thisLast)
  {
    ghost var spec := RunWorkflow(steps, global0, last0, env);
    var stepKeys := steps.keys;
    global := global0;
    thisLast := last0;
    var lastResult: SData := Empty();
    var rest := env;
    var i := 0;
    while i < |stepKeys|
      invariant 0 <= i <= |stepKeys|
      invariant Valid(global) && Valid(thisLast) && Valid(lastResult) && OraclesOk(rest)
      invariant forall j | 0 <= j < |stepKeys| :: stepKeys[j] in steps.fields
      invariant RunFrom(steps, stepKeys[i..], global, thisLast, lastResult, rest, i) == spec
      invariant Recorded(global0, last0, stepKeys, i, global, thisLast)
    {
      var result := Advance(steps, i, global, thisLast, lastResult, rest);
      if !result.StepDone? {
        return Stopped(result), global, thisLast;
      }
      RecordedPut(global0, last0, stepKeys, i, global, thisLast, GlobalEntry(result.input, result.output));
      global := Put(global, stepKeys[i], GlobalEntry(result.input, result.output));
      thisLast := result.output;
      lastResult := result.output;
      rest := result.rest;
      i := i + 1;
    }
    r := Completed(global);
  }

  /** The outcome of a run stopped by a step that did not complete. */
  function Stopped(result: StepResult): (r: Outcome)
    requires !result.StepDone?
    ensures !r.Completed?
  {
    match result
    case StepFailed(m) => Failed(m)
    case StepTerminated(m) => Terminated(m)
    case StepUnfinished => Unfinished
  }

  /**
   * One iteration of the loop of `execute`: runs the step of the `i`-th
   * key; the run either stops there or goes on with its entry stored.
   */
  method Advance(steps: Rec<Step>, i: nat, global: Rec<GlobalEntry>, thisLast: SData, last: SData, env: Oracles)
    returns (result: StepResult)
    requires StepsOk(steps) && i < |steps.keys|
    requires Valid(global) && Valid(last) && OraclesOk(env)
    requires forall j | 0 <= j < |steps.keys| :: steps.keys[j] in steps.fields
    ensures !result.StepDone? ==>
      RunFrom(steps, steps.keys[i..], global, thisLast, last, env, i) == Run(Stopped(result), global, thisLast, i)
    ensures result.StepDone? ==>
      Valid(result.output) && OraclesOk(result.rest)
      && RunFrom(steps, steps.keys[i..], global, thisLast, last, env, i)
         == RunFrom(steps, steps.keys[i + 1..], Put(global, steps.keys[i], GlobalEntry(result.input, result.output)),
                    result.output, result.output, result.rest, i + 1)
  {
    result := RunStep(steps.fields[steps.keys[i]], global, last, env);
    assert steps.keys[i..][0] == steps.keys[i];
    assert steps.keys[i..][1..] == steps.keys[i + 1..];
  }

  /** A `LAST_STEP` step with a schema receives its draft merged with the last result passed to it. */
  predicate ChainsLastStep(step: Step)
  {
    step.inputSource == Some(Tag(LastStep)) && step.inputSchema.Some? && step.inputSchema.value.ZObject?
  }

  /** A completed `LAST_STEP` step records as input its draft merged with the last result it was given. */
  lemma LastStepInput(step: Step, global: Rec<GlobalEntry>, last: SData, env: Oracles)
    requires WellFormedStep(step) && Valid(last) && OraclesOk(env)
    requires ChainsLastStep(step)
    ensures var r := StepRun(step, global, last, env);
      r.StepDone? ==> r.input == Fields(Merge(Draft(step.inputSchema.value).value, last))
  {
  }

  /**
   * A completed `GLOBAL` step records as its input the global state object
   * itself, so its entry refers to the state that holds it.
   */
  lemma GlobalStepInput(step: Step, global: Rec<GlobalEntry>, last: SData, env: Oracles)
    requires WellFormedStep(step) && Valid(last) && OraclesOk(env)
    requires step.inputSource == Some(Tag(Global))
    ensures var r := StepRun(step, global, last, env);
      r.StepDone? ==> r.input == GlobalStateRef
  {
  }

  /** A step that fails validation stops the run before its input is resolved. */
  lemma InvalidStepFails(step: Step, global: Rec<GlobalEntry>, last: SData, env: Oracles)
    requires WellFormedStep(step) && Valid(last) && OraclesOk(env)
    requires ValidateStep(step).Some?
    ensures StepRun(step, global, last, env) == StepFailed(ValidateStep(step).value)
  {
  }

  /** A valid step that is neither a code step nor an agent step fails once its input is resolved. */
  lemma UntaggedStepFails(step: Step, global: Rec<GlobalEntry>, last: SData, env: Oracles)
    requires WellFormedStep(step) && Valid(last) && OraclesOk(env)
    requires ValidateStep(step).None? && !IsCodeStep(step) && !IsAgentStep(step)
    requires ResolveInput(global, step, last, env.answers).Ready?
    ensures StepRun(step, global, last, env) == StepFailed(UnknownStepType)
  {
  }

  /**
   * The engine hands executeAgentStep one `{ step, stepInput }` object, so
   * the agent reads neither `allowUserInteraction` nor `inputSource` off
   * the real step: interaction is always allowed, the single-shot schema is
   * used and the opening message has no content.
   */
  lemma AgentStepSeesWrapper(replies: seq<StepAgent.Reply>, answers: seq<string>)
    ensures var o := StepAgent.Execute(AgentArgument, Undefined, replies, answers);
      o.Completed? ==>
        o.responseSchema == StepAgent.ResponseSchema(false)
        && |o.messages| >= 1 && o.messages[0] == StepAgent.Message("user", None)
  {
    StepAgent.InteractiveSchema(AgentArgument, Undefined, replies, answers);
    StepAgent.CompletedRun(AgentArgument, Undefined, replies, answers);
  }

  /** Before any run `getResult('rawData')` is the empty object. */
  lemma NoResultIsEmptyObject()
    ensures ToRaw(Empty()) == Obj(Empty())
  {
  }

  /** Which form `getResult` and `getGlobal` answer in. */
  datatype ResultType = StructuredData | RawData

  /** What `getResult` returns in either form. */
  datatype ResultView = StructuredResult(data: SData) | RawResult(value: Value)

  /** What `getGlobal` returns in either form. */
  datatype GlobalView = StructuredGlobal(state: Rec<GlobalEntry>) | RawGlobal(data: Rec<Value>)

  class Workflow {
    const steps: Rec<Step>
    var lastStepResult: SData
    var globalState: Rec<GlobalEntry>

    /** The records the object holds are well-formed and every step can be resolved. */
    predicate Consistent()
      reads this
    {
      StepsOk(steps) && Valid(lastStepResult) && Valid(globalState)
    }

    /** A new workflow: no result yet and an empty global state. */
    constructor(steps: Rec<Step>)
      requires StepsOk(steps)
      ensures Consistent()
      ensures this.steps == steps && lastStepResult == Empty() && globalState == Empty()
    {
      this.steps := steps;
      lastStepResult := Empty();
      globalState := Empty();
    }

    /**
     * execute: every step in key order until one fails. The global state
     * and `lastStepResult` are left as the run made them, whether it
     * completed or not.
     */
    method Execute(env: Oracles) returns (r: Outcome)
      requires Consistent() && OraclesOk(env)
      modifies this
      ensures Consistent()
      ensures var run := RunWorkflow(steps, old(globalState), old(lastStepResult), env);
        r == run.outcome && globalState == run.global && lastStepResult == run.lastStepResult
      // the steps completed are a prefix of the keys; the run completes exactly when all are
      ensures var run := RunWorkflow(steps, old(globalState), old(lastStepResult), env);
        run.done <= |steps.keys|
        && (r.Completed? <==> run.done == |steps.keys|)
        && (r.Completed? ==> r.state == globalState)
      // the global state gains the completed keys and keeps every other entry, and
      // `lastStepResult` is the last completed step's output
      ensures var run := RunWorkflow(steps, old(globalState), old(lastStepResult), env);
        run.done <= |steps.keys|
        && Recorded(old(globalState), old(lastStepResult), steps.keys, run.done, globalState, lastStepResult)
    {
      forall i | 0 <= i < |steps.keys| ensures steps.keys[i] in steps.fields {
        KeyAt(steps, i);
      }
      var global, thisLast;
      r, global, thisLast := RunSteps(steps, globalState, lastStepResult, env);
      globalState := global;
      lastStepResult := thisLast;
    }

    /** getResult: the last step's output, or its flattening. */
    method GetResult(kind: ResultType) returns (r: ResultView)
      ensures kind == StructuredData ==> r == StructuredResult(lastStepResult)
      ensures kind == RawData ==> r == RawResult(ToRaw(lastStepResult))
    {
      r := if kind == StructuredData then StructuredResult(lastStepResult) else RawResult(ToRaw(lastStepResult));
    }

    /** getGlobal: the global state, or each step's output flattened under its key. */
    method GetGlobal(kind: ResultType) returns (r: GlobalView)
      requires Valid(globalState)
      ensures kind == StructuredData ==> r == StructuredGlobal(globalState)
      ensures kind == RawData ==>
        r.RawGlobal? && Valid(r.data) && r.data.keys == globalState.keys
        && forall k | k in globalState.fields :: r.data.fields[k] == ToRaw(globalState.fields[k].output)
    {
      if kind == StructuredData {
        return StructuredGlobal(globalState);
      }
      var result: Rec<Value> := Empty();
      var i := 0;
      while i < |globalState.keys|
        invariant 0 <= i <= |globalState.keys|
        invariant Valid(result) && result.keys == globalState.keys[..i]
        invariant forall k | k in result.fields :: k in globalState.fields && result.fields[k] == ToRaw(globalState.fields[k].output)
      {
        var key := globalState.keys[i];
        KeyAt(globalState, i);
        assert key !in result.fields by {
          assert forall j | 0 <= j < i :: globalState.keys[j] != key;
        }
        result := Put(result, key, ToRaw(globalState.fields[key].output));
        assert globalState.keys[..i + 1] == globalState.keys[..i] + [key];
        i := i + 1;
      }
      assert globalState.keys[..i] == globalState.keys;
      assert result.fields.Keys == globalState.fields.Keys by {
        assert forall k :: k in result.fields <==> k in result.keys;
        assert forall k :: k in globalState.fields <==> k in globalState.keys;
      }
      r := RawGlobal(result);
    }
  }
}
