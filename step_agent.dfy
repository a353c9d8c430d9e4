/**
 * The agent step's conversation loop (src/types/workflow/StepAgent.ts).
 *
 * The language model and the human are oracles given as data: `replies`
 * holds what the successive model calls return (or the error they throw)
 * and `answers` what the human types at the successive questions. The loop
 * itself has no bound; when the model or the human has no further reply in
 * these sequences the run is `Unfinished`: the step never settles.
 */
module StepAgent {
  import opened Wrappers
  import opened Records
  import opened Values
  import opened Json
  import opened Zod

  /**
   * A chat message; `content` is `None` where the code stores `undefined`.
   * An assistant message is kept as the reply it records: its content is
   * that reply's JSON text (`Content`).
   */
  datatype Message = Message(role: string, content: Option<string>) | Assistant(reply: Value)

  /** The role a message is sent with. */
  function Role(m: Message): string
  {
    if m.Assistant? then "assistant" else m.role
  }

  /** The text a message is sent with: `JSON.stringify(reply)` for an assistant message. */
  function Content(m: Message): Option<string>
  {
    if m.Assistant? then Stringify(m.reply) else m.content
  }

  /** One model call: the value it returns, or the error it throws. */
  datatype Reply = Returned(result: Value) | Failed(message: string)

  /**
   * How the step ends. `Completed` carries what the code returns
   * (`llmResult`, `messages`, `responseSchema`) and the trace of the run:
   * how many model calls were made and which questions were put to the
   * human. `Terminated` is `process.exit(1)` after logging `message`.
   */
  datatype Outcome =
    | Completed(llmResult: Value, messages: seq<Message>, responseSchema: Schema, calls: nat, asked: seq<Value>)
    | Terminated(message: string)
    | Unfinished

  /** The response format of the model calls, with `humanQuestion` only when interactive. */
  function ResponseSchema(interactive: bool): (s: Schema)
    ensures s.ZObject? && Valid(s.shape)
    ensures s.shape.keys == ["humanResponse", "gotToNextStep"] + (if interactive then ["humanQuestion"] else [])
    ensures "humanQuestion" in s.shape.fields <==> interactive
    ensures interactive ==> s.shape.fields["humanQuestion"].ZOptional?
  {
    var base := Rec(["humanResponse", "gotToNextStep"],
                    map["humanResponse" := ZOther("ZodNullable", None), "gotToNextStep" := ZOther("ZodNullable", None)]);
    if interactive then ZObject(Put(base, "humanQuestion", ZOptional(ZString(None, None), None)), None)
    else ZObject(base, None)
  }

  /** `step.allowUserInteraction !== false` */
  predicate Allows(setting: Value)
  {
    setting != Bool(false)
  }

  /** The interactive template is used for a `USER_INPUT` step that allows interaction. */
  predicate Interactive(inputSource: Value, allow: bool)
  {
    inputSource == Str("USER_INPUT") && allow
  }

  /** The human is asked exactly when the reply holds a truthy `humanQuestion` and interaction is allowed. */
  predicate Asks(reply: Value, allow: bool)
  {
    Truthy(Opt(reply, "humanQuestion")) && allow
  }

  /** The loop goes on after a reply when the human was asked or the model did not move on. */
  predicate Continues(reply: Value, allow: bool)
  {
    Asks(reply, allow) || !Truthy(Opt(reply, "gotToNextStep"))
  }

  /** One pass of the loop over one model call: how the step ended, or the reply and the state it goes on from. */
  datatype Turn =
    | Halt(outcome: Outcome)
    | Next(reply: Value, answers: seq<string>, messages: seq<Message>, asked: seq<Value>, goOn: bool)

  /**
   * The body of the loop for one model call: record the reply, put the
   * question to the human when it may be asked, and decide whether to go
   * on. Reading `humanResponse` off a `null` or `undefined` reply throws,
   * which the loop turns into termination.
   */
  function TakeTurn(allow: bool, reply: Reply, answers: seq<string>, messages: seq<Message>, asked: seq<Value>): (r: Turn)
  {
    match reply
    case Failed(m) => Halt(Terminated(m))
    case Returned(v) =>
      match Get(v, "humanResponse")
      case Err(e) => Halt(Terminated(e))
      case Ok(_) =>
        if Asks(v, allow) && answers == [] then Halt(Unfinished)
        else
          var msgs := messages + [Assistant(v)];
          if Asks(v, allow) then
            Next(v, answers[1..], msgs + [Message("user", Some(answers[0]))], asked + [Opt(v, "humanQuestion")],
                 Continues(v, allow))
          else Next(v, answers, msgs, asked, Continues(v, allow))
  }

  /** The loop from a given state: `messages` so far, `calls` model calls made and the questions `asked` so far. */
  function Converse(allow: bool, schema: Schema, replies: seq<Reply>, answers: seq<string>,
                    messages: seq<Message>, calls: nat, asked: seq<Value>): (r: Outcome)
    decreases |replies|
  {
    if replies == [] then Unfinished
    else
      match TakeTurn(allow, replies[0], answers, messages, asked)
      case Halt(o) => o
      case Next(v, answers', msgs', asked', goOn) =>
        if goOn then Converse(allow, schema, replies[1..], answers', msgs', calls + 1, asked')
        else Completed(v, msgs', schema, calls + 1, asked')
  }

  /** A pass that ends the step does not complete it. */
  lemma TurnHalts(allow: bool, reply: Reply, answers: seq<string>, messages: seq<Message>, asked: seq<Value>)
    ensures var t := TakeTurn(allow, reply, answers, messages, asked);
      t.Halt? ==> !t.outcome.Completed?
  {
  }

  /**
   * A pass that goes on records one assistant message and at most one
   * question, with its user message, using up one answer per question.
   */
  lemma TurnRecords(allow: bool, reply: Reply, answers: seq<string>, messages: seq<Message>, asked: seq<Value>)
    ensures var t := TakeTurn(allow, reply, answers, messages, asked);
      t.Next? ==>
        |asked| <= |t.asked| <= |asked| + 1 && |t.asked| - |asked| <= |answers|
        && t.answers == answers[|t.asked| - |asked|..]
        && asked <= t.asked
        && |t.messages| == |messages| + 1 + (|t.asked| - |asked|) && messages <= t.messages
  {
  }

  /** A pass is over the reply the call returned, and goes on exactly when `Continues` says so. */
  lemma TurnGoesOn(allow: bool, reply: Reply, answers: seq<string>, messages: seq<Message>, asked: seq<Value>)
    ensures var t := TakeTurn(allow, reply, answers, messages, asked);
      t.Next? ==> reply == Returned(t.reply) && (t.goOn <==> Continues(t.reply, allow))
  {
  }

  lemma PrefixOfPrefix<T>(a: seq<T>, b: seq<T>, c: seq<T>)
    requires a <= b && b <= c
    ensures a <= c
  {
    assert forall i | 0 <= i < |a| :: a[i] == b[i] == c[i];
  }

  /** Without interaction a pass asks nothing. */
  lemma TurnSilent(reply: Reply, answers: seq<string>, messages: seq<Message>, asked: seq<Value>)
    ensures var t := TakeTurn(false, reply, answers, messages, asked);
      t.Next? ==> t.asked == asked
  {
  }

  /** executeAgentStep(step, stepInput) */
  function Execute(step: Value, stepInput: Value, replies: seq<Reply>, answers: seq<string>): (r: Outcome)
    ensures Nullish(step) ==> r.Terminated?
    ensures r.Completed? ==> 1 <= r.calls <= |replies|
  {
    match Get(step, "allowUserInteraction")
    case Err(e) => Terminated(e)
    case Ok(setting) =>
      var allow := Allows(setting);
      var schema := ResponseSchema(Interactive(Opt(step, "inputSource"), allow));
      ConverseCounts(allow, schema, replies, answers, [Message("user", Stringify(stepInput))], 0, []);
      Converse(allow, schema, replies, answers, [Message("user", Stringify(stepInput))], 0, [])
  }

  /**
   * executeAgentStep as the code runs it: a `while` loop that calls the
   * model, records its reply, asks the human when told to and decides
   * whether to go on.
   */
  method ExecuteAgentStep(step: Value, stepInput: Value, replies: seq<Reply>, answers: seq<string>)
    returns (r: Outcome)
    ensures r == Execute(step, stepInput, replies, answers)
  {
    var read := Get(step, "allowUserInteraction");
    if read.Err? {
      return Terminated(read.error);
    }
    var allow := Allows(read.value);
    var responseSchema := ResponseSchema(Interactive(Opt(step, "inputSource"), allow));
    var messages := [Message("user", Stringify(stepInput))];
    var asked: seq<Value> := [];
    var i, j := 0, 0;
    var shouldContinue := true;
    var llmResult := Null;
    while shouldContinue
      invariant 0 <= i <= |replies| && 0 <= j <= |answers|
      invariant shouldContinue ==>
        Converse(allow, responseSchema, replies[i..], answers[j..], messages, i, asked)
          == Execute(step, stepInput, replies, answers)
      invariant !shouldContinue ==>
        Completed(llmResult, messages, responseSchema, i, asked) == Execute(step, stepInput, replies, answers)
      decreases |replies| - i, shouldContinue
    {
      if i == |replies| {
        return Unfinished;
      }
      if replies[i].Failed? {
        return Terminated(replies[i].message);
      }
      llmResult := replies[i].result;
      messages := messages + [Assistant(llmResult)];
      var said := Get(llmResult, "humanResponse");
      if said.Err? {
        return Terminated(said.error);
      }
      if Asks(llmResult, allow) {
        if j == |answers| {
          return Unfinished;
        }
        messages := messages + [Message("user", Some(answers[j]))];
        asked := asked + [Opt(llmResult, "humanQuestion")];
        j := j + 1;
      }
      shouldContinue := Continues(llmResult, allow);
      i := i + 1;
    }
    r := Completed(llmResult, messages, responseSchema, i, asked);
  }

  /**
   * The bookkeeping of a completed loop: one assistant message per model
   * call and one user message per question asked, appended after the
   * messages it started from; no more calls than replies and no more
   * questions than answers.
   */
  lemma {:induction false} ConverseCounts(allow: bool, schema: Schema, replies: seq<Reply>, answers: seq<string>,
                                          messages: seq<Message>, calls: nat, asked: seq<Value>)
    ensures var o := Converse(allow, schema, replies, answers, messages, calls, asked);
      o.Completed? ==>
        o.calls > calls && o.calls - calls <= |replies|
        && |o.asked| >= |asked| && |o.asked| - |asked| <= |answers|
        && asked <= o.asked
        && |o.messages| == |messages| + (o.calls - calls) + (|o.asked| - |asked|)
        && messages <= o.messages
        && o.responseSchema == schema
    decreases |replies|
  {
    if replies != [] {
      var t := TakeTurn(allow, replies[0], answers, messages, asked);
      TurnHalts(allow, replies[0], answers, messages, asked);
      TurnRecords(allow, replies[0], answers, messages, asked);
      if t.Next? && t.goOn {
        ConverseCounts(allow, schema, replies[1..], t.answers, t.messages, calls + 1, t.asked);
        var o := Converse(allow, schema, replies, answers, messages, calls, asked);
        assert o == Converse(allow, schema, replies[1..], t.answers, t.messages, calls + 1, t.asked);
        if o.Completed? {
          PrefixOfPrefix(messages, t.messages, o.messages);
          PrefixOfPrefix(asked, t.asked, o.asked);
        }
      }
    }
  }

  /**
   * The reply the loop stops at is the one returned as `llmResult`: it said
   * `gotToNextStep` and carried no question the human was allowed to see.
   */
  lemma {:induction false} ConverseStopsOnLastReply(allow: bool, schema: Schema, replies: seq<Reply>, answers: seq<string>,
                                                    messages: seq<Message>, calls: nat, asked: seq<Value>)
    ensures var o := Converse(allow, schema, replies, answers, messages, calls, asked);
      o.Completed? ==>
        calls < o.calls <= calls + |replies|
        && replies[o.calls - calls - 1] == Returned(o.llmResult)
        && !Continues(o.llmResult, allow)
        && Truthy(Opt(o.llmResult, "gotToNextStep")) && !Asks(o.llmResult, allow)
    decreases |replies|
  {
    if replies != [] {
      var t := TakeTurn(allow, replies[0], answers, messages, asked);
      TurnHalts(allow, replies[0], answers, messages, asked);
      TurnGoesOn(allow, replies[0], answers, messages, asked);
      if t.Next? && t.goOn {
        ConverseStopsOnLastReply(allow, schema, replies[1..], t.answers, t.messages, calls + 1, t.asked);
        var o := Converse(allow, schema, replies, answers, messages, calls, asked);
        if o.Completed? {
          assert replies[o.calls - calls - 1] == replies[1..][o.calls - (calls + 1) - 1];
        }
      }
    }
  }

  /**
   * A completed agent step: its messages open with the one user message
   * holding the JSON of the step input, followed by one assistant message
   * per model call and one user message per question; the result is the
   * reply of the last call, which ended the loop.
   */
  lemma CompletedRun(step: Value, stepInput: Value, replies: seq<Reply>, answers: seq<string>)
    ensures var o := Execute(step, stepInput, replies, answers);
      o.Completed? ==>
        |o.messages| == 1 + o.calls + |o.asked|
        && o.messages[0] == Message("user", Stringify(stepInput))
        && 1 <= o.calls <= |replies| && |o.asked| <= |answers|
        && replies[o.calls - 1] == Returned(o.llmResult)
        && Truthy(Opt(o.llmResult, "gotToNextStep"))
  {
    var read := Get(step, "allowUserInteraction");
    if read.Ok? {
      var allow := Allows(read.value);
      var schema := ResponseSchema(Interactive(Opt(step, "inputSource"), allow));
      var first := [Message("user", Stringify(stepInput))];
      ConverseCounts(allow, schema, replies, answers, first, 0, []);
      ConverseStopsOnLastReply(allow, schema, replies, answers, first, 0, []);
      var o := Converse(allow, schema, replies, answers, first, 0, []);
      if o.Completed? {
        assert o.messages[0] == o.messages[..1][0];
      }
    }
  }

  /** With interaction switched off no question reaches the human. */
  lemma {:induction false} SilentConverse(schema: Schema, replies: seq<Reply>, answers: seq<string>,
                                          messages: seq<Message>, calls: nat, asked: seq<Value>)
    ensures var o := Converse(false, schema, replies, answers, messages, calls, asked);
      o.Completed? ==> o.asked == asked
    decreases |replies|
  {
    if replies != [] {
      var t := TakeTurn(false, replies[0], answers, messages, asked);
      TurnHalts(false, replies[0], answers, messages, asked);
      TurnSilent(replies[0], answers, messages, asked);
      if t.Next? && t.goOn {
        SilentConverse(schema, replies[1..], t.answers, t.messages, calls + 1, t.asked);
      }
    }
  }

  /**
   * A step with `allowUserInteraction: false` never asks: one assistant
   * message per call after the opening one, and the non-interactive schema.
   */
  lemma NoQuestionsWhenDisallowed(step: Value, stepInput: Value, replies: seq<Reply>, answers: seq<string>)
    requires Opt(step, "allowUserInteraction") == Bool(false)
    ensures var o := Execute(step, stepInput, replies, answers);
      o.Completed? ==>
        o.asked == [] && |o.messages| == 1 + o.calls
        && o.responseSchema == ResponseSchema(false)
  {
    var first := [Message("user", Stringify(stepInput))];
    var schema := ResponseSchema(false);
    if !Nullish(step) {
      SilentConverse(schema, replies, answers, first, 0, []);
      ConverseCounts(false, schema, replies, answers, first, 0, []);
    }
  }

  /**
   * Replies shaped like callModel's `{ result, messages }` carry neither
   * `gotToNextStep` nor `humanQuestion`, so the loop never stops on them:
   * however many there are, the step does not complete.
   */
  lemma {:induction false} WrappedRepliesNeverStop(allow: bool, schema: Schema, replies: seq<Reply>, answers: seq<string>,
                                                   messages: seq<Message>, calls: nat, asked: seq<Value>)
    requires forall i | 0 <= i < |replies| ::
      replies[i].Returned? && replies[i].result.Obj?
      && "gotToNextStep" !in replies[i].result.rec.fields
      && "humanQuestion" !in replies[i].result.rec.fields
    ensures Converse(allow, schema, replies, answers, messages, calls, asked) == Unfinished
    decreases |replies|
  {
    if replies != [] {
      var v := replies[0].result;
      assert Opt(v, "humanQuestion") == Undefined && Opt(v, "gotToNextStep") == Undefined;
      var t := TakeTurn(allow, replies[0], answers, messages, asked);
      assert t.Next? && t.goOn;
      WrappedRepliesNeverStop(allow, schema, replies[1..], t.answers, t.messages, calls + 1, t.asked);
    }
  }

  /** The interactive schema is chosen exactly for an allowing `USER_INPUT` step. */
  lemma InteractiveSchema(step: Value, stepInput: Value, replies: seq<Reply>, answers: seq<string>)
    ensures var o := Execute(step, stepInput, replies, answers);
      o.Completed? ==>
        o.responseSchema
          == ResponseSchema(Opt(step, "inputSource") == Str("USER_INPUT") && Opt(step, "allowUserInteraction") != Bool(false))
  {
    if !Nullish(step) {
      var allow := Allows(Opt(step, "allowUserInteraction"));
      var schema := ResponseSchema(Interactive(Opt(step, "inputSource"), allow));
      ConverseCounts(allow, schema, replies, answers, [Message("user", Stringify(stepInput))], 0, []);
    }
  }

  /** A thrown model call ends the process with the error's message. */
  lemma ModelErrorTerminates(step: Value, stepInput: Value, m: string, rest: seq<Reply>, answers: seq<string>)
    requires !Nullish(step)
    ensures Execute(step, stepInput, [Failed(m)] + rest, answers) == Terminated(m)
  {
  }

  /**
   * What the code returns, `{ llmResult, messages, responseSchema }`, as a
   * value; the schema is an opaque host object.
   */
  function ResultValue(o: Outcome): (v: Value)
    requires o.Completed?
    ensures v.Obj? && Valid(v.rec)
    ensures v.rec.keys == ["llmResult", "messages", "responseSchema"]
    ensures v.rec.fields["llmResult"] == o.llmResult
    ensures v.rec.fields["messages"].Arr? && |v.rec.fields["messages"].items| == |o.messages|
  {
    Obj(Rec(["llmResult", "messages", "responseSchema"],
            map["llmResult" := o.llmResult,
                "messages" := Arr(MessageValues(o.messages)),
                "responseSchema" := Host(TypeName(o.responseSchema))]))
  }

  /** Messages as the objects `{ role, content }` the code builds. */
  function MessageValues(ms: seq<Message>): (vs: seq<Value>)
    ensures |vs| == |ms|
  {
    if ms == [] then []
    else
      var content := match Content(ms[0]) case Some(c) => Str(c) case None => Undefined;
      [Obj(Rec(["role", "content"], map["role" := Str(Role(ms[0])), "content" := content]))] + MessageValues(ms[1..])
  }
}
