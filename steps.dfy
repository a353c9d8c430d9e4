/**
 * Step definitions and their type tags (src/types/workflow/Step.ts), and
 * the two `InputSource` enumerations: the one Step.ts declares and the one
 * Input.ts declares, which the engine actually compares against.
 */
module Steps {
  import opened Wrappers
  import opened Values
  import opened Zod

  /** The members of the `InputSource` enum in Input.ts. */
  datatype InputSource = DataObject | LastStep | UserInput | Global | Mixed

  /** The string each member of the Input.ts enum stands for. */
  function Tag(s: InputSource): string
  {
    match s
    case DataObject => "DATA_OBJECT"
    case LastStep => "LAST_STEP"
    case UserInput => "USER_INPUT"
    case Global => "GLOBAL"
    case Mixed => "MIXED"
  }

  lemma TagInjective(a: InputSource, b: InputSource)
    ensures Tag(a) == Tag(b) <==> a == b
  {
  }

  /** The members of the `InputSource` enum in Step.ts: no `DataObject`. */
  datatype StepSource = SLastStep | SUserInput | SGlobal | SMixed

  function StepTag(s: StepSource): string
  {
    match s
    case SLastStep => "LAST_STEP"
    case SUserInput => "USER_INPUT"
    case SGlobal => "GLOBAL"
    case SMixed => "MIXED"
  }

  /** The Step.ts member with the same name as an Input.ts member, if any. */
  function AsStepSource(s: InputSource): Option<StepSource>
  {
    match s
    case DataObject => None
    case LastStep => Some(SLastStep)
    case UserInput => Some(SUserInput)
    case Global => Some(SGlobal)
    case Mixed => Some(SMixed)
  }

  /**
   * The two enums agree on every member they share, and `DATA_OBJECT` is
   * the only value Step.ts cannot name.
   */
  lemma SourcesAgree(s: InputSource)
    ensures AsStepSource(s).Some? ==> StepTag(AsStepSource(s).value) == Tag(s)
    ensures AsStepSource(s).None? <==> Tag(s) == "DATA_OBJECT"
    ensures forall t: StepSource :: StepTag(t) != "DATA_OBJECT"
  {
  }

  /**
   * A step as the engine reads it. Absent properties are `None` (or
   * `Undefined` for the data object); `inputSource` and `stepType` hold the
   * strings the code compares. The code step's `run` and the agent's
   * prompts are not fields here: the engine receives them as parameters.
   */
  datatype Step = Step(
    name: string,
    inputSchema: Option<Schema>,
    inputSource: Option<string>,
    inputDataObject: Value,
    introductionText: Option<string>,
    allowUserInteraction: Option<bool>,
    stepType: Option<string>)

  const AgentStepType := "AgentStep"
  const CodeStepType := "CodeStep"

  /** `isAgentStep`: `step.type === 'AgentStep'` */
  predicate IsAgentStep(s: Step)
  {
    s.stepType == Some(AgentStepType)
  }

  /** `isCodeStep`: `step.type === 'CodeStep'` */
  predicate IsCodeStep(s: Step)
  {
    s.stepType == Some(CodeStepType)
  }

  /** No step is both an agent step and a code step. */
  lemma TagsExclusive(s: Step)
    ensures !(IsAgentStep(s) && IsCodeStep(s))
  {
  }

  /** `createAgentStep`: every given field, with the type forced to `AgentStep`. */
  function CreateAgentStep(params: Step): (r: Step)
    ensures IsAgentStep(r) && !IsCodeStep(r)
    ensures r.(stepType := params.stepType) == params
  {
    params.(stepType := Some(AgentStepType))
  }

  /** `createCodeStep`: every given field, with the type forced to `CodeStep`. */
  function CreateCodeStep(params: Step): (r: Step)
    ensures IsCodeStep(r) && !IsAgentStep(r)
    ensures r.(stepType := params.stepType) == params
  {
    params.(stepType := Some(CodeStepType))
  }
}
