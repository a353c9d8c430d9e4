/**
 * Resolving a step's input (src/types/workflow/Input.ts): a dispatch on the
 * step's input source over drafts and merges, and the prompt-per-field loop
 * that fills a draft from a human's answers.
 */
module Input {
  import opened Wrappers
  import opened Records
  import opened Values
  import opened Zod
  import opened StructuredData
  import opened Steps

  /**
   * What a step receives: structured data, or (for a `GLOBAL` source) a
   * reference to the workflow's global state object itself, not a copy of
   * it. An entry whose input is `GlobalStateRef` therefore holds the live
   * state: that state comes to contain the entry itself and every later one.
   */
  datatype StepInput = Fields(data: SData) | GlobalStateRef

  /** One entry of the workflow's global state. */
  datatype GlobalEntry = GlobalEntry(input: StepInput, output: SData)

  /** What the resolution needs to hold of a step's static parts. */
  predicate WellFormedStep(s: Step)
  {
    (s.inputSchema.Some? && s.inputSchema.value.ZObject? ==> Valid(s.inputSchema.value.shape))
    && (s.inputDataObject.Obj? ==> Valid(s.inputDataObject.rec))
  }

  /**
   * The question asked for a field: its description with `:` appended
   * unless it already ends in `?` or `:`, or `?` when there is none.
   */
  function Prompt(description: Option<string>): (q: string)
    ensures |q| > 0 && (q[|q| - 1] == '?' || q[|q| - 1] == ':')
    ensures description.None? || description.value == "" ==> q == "?"
    ensures description.Some? && description.value != "" ==>
      q == description.value || q == description.value + ":"
    ensures description.Some? && description.value != ""
      && description.value[|description.value| - 1] in {'?', ':'}
      ==> q == description.value
  {
    match description
    case None => "?"
    case Some(d) =>
      if d == "" then "?"
      else if d[|d| - 1] == '?' || d[|d| - 1] == ':' then d
      else d + ":"
  }

  /** The questions the prompt loop asks: one per field, in key order. */
  function Questions(d: SData, n: nat): (qs: seq<string>)
    requires Valid(d) && n <= |d.keys|
    ensures |qs| == n
    ensures forall i | 0 <= i < n :: qs[i] == Prompt(d.fields[d.keys[i]].description)
  {
    if n == 0 then []
    else KeyAt(d, n - 1); Questions(d, n - 1) + [Prompt(d.fields[d.keys[n - 1]].description)]
  }

  /**
   * The draft after the first `n` fields, in key order, received their
   * answers; `answers[i]` is what the human typed at the `i`-th question.
   */
  function Answered(d: SData, answers: seq<string>, n: nat): (r: SData)
    requires Valid(d) && n <= |d.keys| && n <= |answers|
    ensures r.keys == d.keys && r.fields.Keys == d.fields.Keys && Valid(r)
  {
    if n == 0 then d
    else
      var prev := Answered(d, answers, n - 1);
      var key := d.keys[n - 1];
      KeyAt(d, n - 1);
      Rec(prev.keys, prev.fields[key := prev.fields[key].(value := Some(Str(answers[n - 1])))])
  }

  /**
   * After `n` answers the descriptions are untouched, the first `n` fields
   * in key order hold their answers and the rest are as drafted.
   */
  lemma {:induction false} AnsweredFields(d: SData, answers: seq<string>, n: nat)
    requires Valid(d) && n <= |d.keys| && n <= |answers|
    ensures Valid(Answered(d, answers, n))
    ensures forall i | 0 <= i < |d.keys| ::
      Answered(d, answers, n).fields[d.keys[i]].description == d.fields[d.keys[i]].description
    ensures forall i | 0 <= i < n :: Answered(d, answers, n).fields[d.keys[i]].value == Some(Str(answers[i]))
    ensures forall i | n <= i < |d.keys| :: Answered(d, answers, n).fields[d.keys[i]] == d.fields[d.keys[i]]
  {
    if n > 0 {
      AnsweredFields(d, answers, n - 1);
      var prev := Answered(d, answers, n - 1);
      var key := d.keys[n - 1];
      KeyAt(d, n - 1);
      var a := Answered(d, answers, n);
      assert a.fields == prev.fields[key := prev.fields[key].(value := Some(Str(answers[n - 1])))];
      forall i | 0 <= i < |d.keys| && i != n - 1
        ensures d.keys[i] != key && a.fields[d.keys[i]] == prev.fields[d.keys[i]]
      {
      }
    }
  }

  /**
   * getUserInput: asks the question of every field in key order and stores
   * each answer in a copy of the draft. `asked` is what was put to the
   * human; when the answers run out, the last question stays unanswered and
   * the result never arrives (`None`).
   */
  method GetUserInput(draft: SData, answers: seq<string>) returns (r: Option<SData>, asked: seq<string>)
    requires Valid(draft)
    ensures |answers| >= |draft.keys| ==>
      r == Some(Answered(draft, answers, |draft.keys|)) && asked == Questions(draft, |draft.keys|)
    ensures |answers| < |draft.keys| ==>
      r == None && asked == Questions(draft, |answers| + 1)
  {
    var result := draft;
    asked := [];
    var i := 0;
    while i < |draft.keys|
      invariant 0 <= i <= |draft.keys| && i <= |answers|
      invariant result == Answered(draft, answers, i)
      invariant asked == Questions(draft, i)
    {
      var key := draft.keys[i];
      KeyAt(draft, i);
      KeyAt(result, i);
      var question := Prompt(draft.fields[key].description);
      asked := asked + [question];
      if i == |answers| {
        return None, asked;
      }
      result := Rec(result.keys, result.fields[key := result.fields[key].(value := Some(Str(answers[i])))]);
      i := i + 1;
    }
    r := Some(result);
  }

  const InputNotExpected := "input not expected: "

  /** How a step's input resolves: a value, a thrown error, or a wait that never ends. */
  datatype Resolution = Ready(input: StepInput) | Thrown(message: string) | Waiting

  /** getStepInput, as a function of the step, the global state and the last output. */
  function ResolveInput(global: Rec<GlobalEntry>, step: Step, last: SData, answers: seq<string>): (r: Resolution)
    requires WellFormedStep(step) && Valid(last)
    ensures r.Ready? && r.input.Fields? ==> Valid(r.input.data)
  {
    if step.inputSource == Some(Tag(Global)) then Ready(GlobalStateRef)
    else if step.inputSchema.None? then Ready(Fields(Empty()))
    else
      match Draft(step.inputSchema.value)
      case Err(e) => Thrown(e)
      case Ok(draft) =>
        if step.inputSource == Some(Tag(DataObject)) && Truthy(step.inputDataObject) then
          Ready(Fields(Merge(draft, FromRaw(step.inputDataObject).value)))
        else if step.inputSource == Some(Tag(LastStep)) then
          Ready(Fields(Merge(draft, last)))
        else if step.inputSource == Some(Tag(UserInput)) then
          if |answers| < |draft.keys| then Waiting
          else Ready(Fields(Answered(draft, answers, |draft.keys|)))
        else Thrown(InputNotExpected)
  }

  /** getStepInput: the dispatch, running the prompt loop for a `USER_INPUT` source. */
  method GetStepInput(global: Rec<GlobalEntry>, step: Step, last: SData, answers: seq<string>)
    returns (r: Resolution)
    requires WellFormedStep(step) && Valid(last)
    ensures r == ResolveInput(global, step, last, answers)
  {
    if step.inputSource == Some(Tag(Global)) {
      return Ready(GlobalStateRef);
    }
    if step.inputSchema.None? {
      return Ready(Fields(Empty()));
    }
    var drafted := Draft(step.inputSchema.value);
    if drafted.Err? {
      return Thrown(drafted.error);
    }
    var draft := drafted.value;
    if step.inputSource == Some(Tag(DataObject)) && Truthy(step.inputDataObject) {
      var dataObject := FromRaw(step.inputDataObject).value;
      r := Ready(Fields(Merge(draft, dataObject)));
    } else if step.inputSource == Some(Tag(LastStep)) {
      r := Ready(Fields(Merge(draft, last)));
    } else if step.inputSource == Some(Tag(UserInput)) {
      var filled, _ := GetUserInput(draft, answers);
      r := if filled.Some? then Ready(Fields(filled.value)) else Waiting;
    } else {
      r := Thrown(InputNotExpected);
    }
  }

  /** A `GLOBAL` source yields the global state object itself, without looking at the schema. */
  lemma GlobalIgnoresSchema(global: Rec<GlobalEntry>, step: Step, last: SData, answers: seq<string>)
    requires WellFormedStep(step) && Valid(last)
    requires step.inputSource == Some(Tag(Global))
    ensures ResolveInput(global, step, last, answers) == Ready(GlobalStateRef)
  {
  }

  /** Any other source without a schema yields empty structured data. */
  lemma NoSchemaIsEmpty(global: Rec<GlobalEntry>, step: Step, last: SData, answers: seq<string>)
    requires WellFormedStep(step) && Valid(last)
    requires step.inputSource != Some(Tag(Global)) && step.inputSchema.None?
    ensures ResolveInput(global, step, last, answers) == Ready(Fields(Empty()))
  {
  }

  /**
   * A `DATA_OBJECT` source with an object: the keys are the schema's and the
   * object's, the object's values win and the schema's descriptions stay.
   */
  lemma DataObjectMerges(global: Rec<GlobalEntry>, step: Step, last: SData, answers: seq<string>)
    requires WellFormedStep(step) && Valid(last)
    requires step.inputSource == Some(Tag(DataObject))
    requires step.inputSchema.Some? && step.inputSchema.value.ZObject?
    requires step.inputDataObject.Obj?
    ensures var r := ResolveInput(global, step, last, answers);
      var shape := step.inputSchema.value.shape;
      var obj := step.inputDataObject.rec;
      r.Ready? && r.input.Fields?
      && r.input.data.fields.Keys == shape.fields.Keys + obj.fields.Keys
      && (forall k | k in obj.fields :: r.input.data.fields[k].value == Some(obj.fields[k]))
      && (forall k | k in shape.fields :: r.input.data.fields[k].description == Some(DescriptionOr(shape.fields[k], k)))
      && (forall k | k in shape.fields && k !in obj.fields :: r.input.data.fields[k].value == Some(Undefined))
  {
    var draft := Draft(step.inputSchema.value).value;
    var raw := FromRaw(step.inputDataObject).value;
    var d := Merge(draft, raw);
    forall k | k in step.inputDataObject.rec.fields
      ensures d.fields[k].value == Some(step.inputDataObject.rec.fields[k])
    {
      MergeSecondValueWins(draft, raw, k);
    }
    forall k | k in step.inputSchema.value.shape.fields
      ensures d.fields[k].description == Some(DescriptionOr(step.inputSchema.value.shape.fields[k], k))
    {
      MergeKeepsFirstDescription(draft, raw, k);
    }
  }

  /** A `LAST_STEP` source: the previous output's values override the drafts. */
  lemma LastStepOverrides(global: Rec<GlobalEntry>, step: Step, last: SData, answers: seq<string>)
    requires WellFormedStep(step) && Valid(last)
    requires step.inputSource == Some(Tag(LastStep))
    requires step.inputSchema.Some? && step.inputSchema.value.ZObject?
    ensures var r := ResolveInput(global, step, last, answers);
      r.Ready? && r.input.Fields?
      && r.input.data.fields.Keys == step.inputSchema.value.shape.fields.Keys + last.fields.Keys
      && forall k | k in last.fields && last.fields[k].value.Some? ::
           r.input.data.fields[k].value == last.fields[k].value
  {
  }

  /**
   * A `USER_INPUT` source with enough answers: exactly the schema's keys,
   * the `i`-th holding the `i`-th answer. With too few answers it waits
   * forever.
   */
  lemma UserInputFillsEveryField(global: Rec<GlobalEntry>, step: Step, last: SData, answers: seq<string>)
    requires WellFormedStep(step) && Valid(last)
    requires step.inputSource == Some(Tag(UserInput))
    requires step.inputSchema.Some? && step.inputSchema.value.ZObject?
    ensures var r := ResolveInput(global, step, last, answers);
      var shape := step.inputSchema.value.shape;
      (|answers| < |shape.keys| <==> r.Waiting?)
      && (|answers| >= |shape.keys| ==>
            r.Ready? && r.input.Fields? && r.input.data.keys == shape.keys
            && forall i | 0 <= i < |shape.keys| :: r.input.data.fields[shape.keys[i]].value == Some(Str(answers[i])))
  {
    var draft := Draft(step.inputSchema.value).value;
    var r := ResolveInput(global, step, last, answers);
    assert r == if |answers| < |draft.keys| then Waiting else Ready(Fields(Answered(draft, answers, |draft.keys|)));
    if |answers| >= |draft.keys| {
      AnsweredAll(draft, answers);
    }
  }

  /** With an answer for every field, every field holds its answer. */
  lemma AnsweredAll(draft: SData, answers: seq<string>)
    requires Valid(draft) && |answers| >= |draft.keys|
    ensures var a := Answered(draft, answers, |draft.keys|);
      a.keys == draft.keys && forall i | 0 <= i < |draft.keys| :: a.fields[draft.keys[i]].value == Some(Str(answers[i]))
  {
    AnsweredFields(draft, answers, |draft.keys|);
  }

  /**
   * The `i`-th question asked for a schema is built from the `i`-th
   * field's description, or from its key when the description is empty.
   */
  lemma QuestionsFollowSchema(schema: Schema)
    requires schema.ZObject? && Valid(schema.shape)
    ensures var shape := schema.shape;
      var draft := Draft(schema).value;
      forall i | 0 <= i < |shape.keys| ::
        Questions(draft, |draft.keys|)[i] == Prompt(Some(DescriptionOr(shape.fields[shape.keys[i]], shape.keys[i])))
  {
    DraftDescriptions(schema);
  }

  lemma DraftDescriptions(schema: Schema)
    requires schema.ZObject? && Valid(schema.shape)
    ensures var shape := schema.shape;
      forall i | 0 <= i < |shape.keys| ::
        Draft(schema).value.fields[shape.keys[i]].description == Some(DescriptionOr(shape.fields[shape.keys[i]], shape.keys[i]))
  {
  }

  /**
   * The sources the dispatch does not handle (`MIXED`, none, or
   * `DATA_OBJECT` without a truthy object) fail once a schema is given.
   */
  lemma UnexpectedSourceFails(global: Rec<GlobalEntry>, step: Step, last: SData, answers: seq<string>)
    requires WellFormedStep(step) && Valid(last)
    requires step.inputSchema.Some? && step.inputSchema.value.ZObject?
    requires step.inputSource == Some(Tag(Mixed)) || step.inputSource.None?
      || (step.inputSource == Some(Tag(DataObject)) && !Truthy(step.inputDataObject))
    ensures ResolveInput(global, step, last, answers) == Thrown(InputNotExpected)
  {
  }
}
