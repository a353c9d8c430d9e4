/**
 * The agent node's conversation loop and its final formatting call
 * (src/nodes/Agent.ts).
 *
 * As for the agent step, the model calls and the human's answers are
 * oracles given as data. Here a model call returns `{ result, messages }`:
 * the parsed result and the messages the call exchanged, which the node
 * collects and hands to one last call that formats the step's output.
 */
module AgentNode {
  import opened Wrappers
  import opened Records
  import opened Values
  import opened Json
  import opened Zod
  import StepAgent

  type Message = StepAgent.Message

  /** One call of the model: what it returns, or the error it throws. */
  datatype Call = Replied(result: Value, messages: seq<Value>) | Failed(message: string)

  /** The loop's end: all messages collected, the conversation, and its trace. */
  datatype LoopEnd =
    | LoopDone(allMessages: seq<Value>, messages: seq<Message>, iterations: nat, asked: seq<Value>)
    | LoopTerminated(message: string)
    | LoopUnfinished

  /**
   * How the node ends: the formatting call's result together with the
   * prompt that call was given and the number of calls made, or process
   * termination, or a run that never settles.
   */
  datatype Outcome =
    | Completed(result: Value, finalMessages: seq<Value>, calls: nat, conversation: seq<Message>, asked: seq<Value>)
    | Terminated(message: string)
    | Unfinished

  /** `[InputSource.LastStepAndUserInput, InputSource.UserInput].includes(step.inputSource)`; the first member is `undefined`. */
  predicate AllowsInteraction(inputSource: Value)
  {
    inputSource == Undefined || inputSource == Str("USER_INPUT")
  }

  /** The response schema; the `humanResponse` extension is discarded by the code. */
  function ResponseSchema(interactive: bool): (s: Schema)
    ensures s.ZObject? && Valid(s.shape)
    ensures s.shape.keys == ["responseStorage", "gotToNextStep"] + (if interactive then ["humanQuestion"] else [])
    ensures "humanResponse" !in s.shape.fields
  {
    var base := Rec(["responseStorage", "gotToNextStep"],
                    map["responseStorage" := ZString(None, None), "gotToNextStep" := ZOther("ZodBoolean", None)]);
    if interactive then ZObject(Put(base, "humanQuestion", ZString(None, None)), None)
    else ZObject(base, None)
  }

  /** The first and only initial message: `'inputData: ' + JSON.stringify(stepInput)`. */
  function FirstMessage(stepInput: Value): Message
  {
    StepAgent.Message("user", Some("inputData: " + Stringify(stepInput).GetOr("undefined")))
  }

  /** The system message that asks the last call to convert to the output schema. */
  function FormatRequest(outputSchemaJson: string): Value
  {
    Obj(Rec(["role", "content"],
            map["role" := Str("system"),
                "content" := Str("Convert the above output to the following schema: " + outputSchemaJson)]))
  }

  /** The messages exchanged by a run of calls, in call order. */
  function CallMessages(calls: seq<Call>): seq<Value>
  {
    if calls == [] then []
    else (if calls[0].Replied? then calls[0].messages else []) + CallMessages(calls[1..])
  }

  /** The call replied, and its `agentResponse` said `gotToNextStep` with no permitted question pending. */
  predicate SaidDone(call: Call, allow: bool)
  {
    call.Replied?
    && Truthy(Opt(Opt(call.result, "agentResponse"), "gotToNextStep"))
    && !StepAgent.Asks(Opt(call.result, "agentResponse"), allow)
  }

  /** One pass of the loop over one call: how the loop ended, or the state it goes on from. */
  datatype Turn =
    | Halt(end: LoopEnd)
    | Next(answers: seq<string>, allMessages: seq<Value>, messages: seq<Message>, asked: seq<Value>, goOn: bool)

  /**
   * The body of the loop for one call: collect the call's messages, record
   * the reply, put the question to the human when it may be asked, and
   * decide whether to go on.
   */
  function TakeTurn(allow: bool, call: Call, answers: seq<string>, allMessages: seq<Value>,
                    messages: seq<Message>, asked: seq<Value>): (r: Turn)
  {
    match call
    case Failed(m) => Halt(LoopTerminated(m))
    case Replied(result, callMessages) =>
      match Get(result, "agentResponse")
      case Err(e) => Halt(LoopTerminated(e))
      case Ok(response) =>
        match Get(response, "humanResponse")
        case Err(e) => Halt(LoopTerminated(e))
        case Ok(_) =>
          var asks := StepAgent.Asks(response, allow);
          if asks && answers == [] then Halt(LoopUnfinished)
          else
            var msgs := messages + [StepAgent.Assistant(result)];
            if asks then
              Next(answers[1..], allMessages + callMessages,
                   msgs + [StepAgent.Message("user", Some(answers[0]))],
                   asked + [Opt(response, "humanQuestion")], StepAgent.Continues(response, allow))
            else
              Next(answers, allMessages + callMessages, msgs, asked, StepAgent.Continues(response, allow))
  }

  /** A pass either ends the loop without finishing it or goes on with the call's messages collected. */
  lemma TurnCollects(allow: bool, call: Call, answers: seq<string>, allMessages: seq<Value>,
                  messages: seq<Message>, asked: seq<Value>)
    ensures var t := TakeTurn(allow, call, answers, allMessages, messages, asked);
      (t.Halt? ==> !t.end.LoopDone?)
      && (t.Next? ==> call.Replied? && t.allMessages == allMessages + call.messages)
  {
  }

  /** A pass that goes on records one reply and at most one question, using up one answer per question. */
  lemma TurnRecords(allow: bool, call: Call, answers: seq<string>, allMessages: seq<Value>,
                  messages: seq<Message>, asked: seq<Value>)
    ensures var t := TakeTurn(allow, call, answers, allMessages, messages, asked);
      t.Next? ==>
        |asked| <= |t.asked| <= |asked| + 1 && |t.asked| - |asked| <= |answers|
        && t.answers == answers[|t.asked| - |asked|..]
        && |t.messages| == |messages| + 1 + (|t.asked| - |asked|) && t.messages[..|messages|] == messages
  {
  }

  /** A pass goes on exactly when its call did not say it was done. */
  lemma TurnGoesOn(allow: bool, call: Call, answers: seq<string>, allMessages: seq<Value>,
                  messages: seq<Message>, asked: seq<Value>)
    ensures var t := TakeTurn(allow, call, answers, allMessages, messages, asked);
      t.Next? ==> (t.goOn <==> !SaidDone(call, allow))
  {
  }

  /** Without interaction a pass asks nothing. */
  lemma TurnSilent(call: Call, answers: seq<string>, allMessages: seq<Value>, messages: seq<Message>, asked: seq<Value>)
    ensures var t := TakeTurn(false, call, answers, allMessages, messages, asked);
      t.Next? ==> t.asked == asked
  {
  }

  /** The loop from a given state. */
  function Converse(allow: bool, calls: seq<Call>, answers: seq<string>, allMessages: seq<Value>,
                    messages: seq<Message>, iterations: nat, asked: seq<Value>): (r: LoopEnd)
    ensures r.LoopDone? ==> iterations < r.iterations <= iterations + |calls|
    decreases |calls|
  {
    if calls == [] then LoopUnfinished
    else
      match TakeTurn(allow, calls[0], answers, allMessages, messages, asked)
      case Halt(e) => e
      case Next(answers', all', msgs', asked', goOn) =>
        if goOn then Converse(allow, calls[1..], answers', all', msgs', iterations + 1, asked')
        else LoopDone(all', msgs', iterations + 1, asked')
  }

  /**
   * AgentNode.execute: the loop, then formatStepResult's call over the
   * collected messages. `outputSchemaJson` is the JSON text of the step's
   * output schema; reading `allowHumanResponse` off a missing step throws.
   */
  function Execute(step: Value, stepInput: Value, outputSchemaJson: string,
                   calls: seq<Call>, answers: seq<string>): (r: Outcome)
    ensures Nullish(step) ==> r.Terminated?
    ensures r.Completed? ==> 2 <= r.calls <= |calls| && calls[r.calls - 1].Replied? && r.result == calls[r.calls - 1].result
  {
    if Nullish(step) then Terminated(Get(step, "allowHumanResponse").error)
    else
      var allow := AllowsInteraction(Opt(step, "inputSource"));
      Finish(Converse(allow, calls, answers, [], [FirstMessage(stepInput)], 0, []), outputSchemaJson, calls)
  }

  /** formatStepResult after the loop: the call that follows its last iteration. */
  function Finish(e: LoopEnd, outputSchemaJson: string, calls: seq<Call>): (r: Outcome)
    ensures r.Completed? ==>
      e.LoopDone? && r.calls == e.iterations + 1 <= |calls| && calls[e.iterations].Replied? &&
      r.result == calls[e.iterations].result && r.finalMessages == e.allMessages + [FormatRequest(outputSchemaJson)]
  {
    match e
    case LoopTerminated(m) => Terminated(m)
    case LoopUnfinished => Unfinished
    case LoopDone(all, msgs, n, asked) =>
      if n >= |calls| then Unfinished
      else
        match calls[n]
        case Failed(m) => Terminated(m)
        case Replied(result, _) => Completed(result, all + [FormatRequest(outputSchemaJson)], n + 1, msgs, asked)
  }

  /** AgentNode.execute as the code runs it. */
  method ExecuteNode(step: Value, stepInput: Value, outputSchemaJson: string,
                     calls: seq<Call>, answers: seq<string>) returns (r: Outcome)
    ensures r == Execute(step, stepInput, outputSchemaJson, calls, answers)
  {
    if Nullish(step) {
      return Terminated(Get(step, "allowHumanResponse").error);
    }
    var allow := AllowsInteraction(Opt(step, "inputSource"));
    var e := RunConversation(allow, stepInput, calls, answers);
    r := FormatStepResult(e, outputSchemaJson, calls);
  }

  /** The `while` loop of AgentNode.execute. */
  method RunConversation(allow: bool, stepInput: Value, calls: seq<Call>, answers: seq<string>) returns (e: LoopEnd)
    ensures e == Converse(allow, calls, answers, [], [FirstMessage(stepInput)], 0, [])
  {
    var messages := [FirstMessage(stepInput)];
    var allMessages: seq<Value> := [];
    var asked: seq<Value> := [];
    var i, j := 0, 0;
    var shouldContinue := true;
    while shouldContinue
      invariant 0 <= i <= |calls| && 0 <= j <= |answers|
      invariant shouldContinue ==>
        Converse(allow, calls[i..], answers[j..], allMessages, messages, i, asked)
          == Converse(allow, calls, answers, [], [FirstMessage(stepInput)], 0, [])
      invariant !shouldContinue ==>
        LoopDone(allMessages, messages, i, asked)
          == Converse(allow, calls, answers, [], [FirstMessage(stepInput)], 0, [])
      decreases |calls| - i, shouldContinue
    {
      if i == |calls| {
        return LoopUnfinished;
      }
      ghost var before := TakeTurn(allow, calls[i], answers[j..], allMessages, messages, asked);
      assert calls[i..][0] == calls[i] && calls[i..][1..] == calls[i + 1..];
      if calls[i].Failed? {
        return LoopTerminated(calls[i].message);
      }
      var result := calls[i].result;
      var response := Get(result, "agentResponse");
      if response.Err? {
        return LoopTerminated(response.error);
      }
      allMessages := allMessages + calls[i].messages;
      messages := messages + [StepAgent.Assistant(result)];
      var said := Get(response.value, "humanResponse");
      if said.Err? {
        return LoopTerminated(said.error);
      }
      var asks := StepAgent.Asks(response.value, allow);
      if asks {
        if j == |answers| {
          return LoopUnfinished;
        }
        messages := messages + [StepAgent.Message("user", Some(answers[j]))];
        asked := asked + [Opt(response.value, "humanQuestion")];
        j := j + 1;
      }
      shouldContinue := StepAgent.Continues(response.value, allow);
      assert before == Next(answers[j..], allMessages, messages, asked, shouldContinue);
      i := i + 1;
    }
    e := LoopDone(allMessages, messages, i, asked);
  }

  /** formatStepResult: one more model call over the collected messages. */
  method FormatStepResult(e: LoopEnd, outputSchemaJson: string, calls: seq<Call>) returns (r: Outcome)
    ensures r == Finish(e, outputSchemaJson, calls)
    ensures r.Completed? ==>
      e.LoopDone? && r.calls == e.iterations + 1
      && r.finalMessages == e.allMessages + [FormatRequest(outputSchemaJson)]
  {
    if !e.LoopDone? {
      return if e.LoopTerminated? then Terminated(e.message) else Unfinished;
    }
    if e.iterations >= |calls| {
      return Unfinished;
    }
    var last := calls[e.iterations];
    if last.Failed? {
      return Terminated(last.message);
    }
    r := Completed(last.result, e.allMessages + [FormatRequest(outputSchemaJson)], e.iterations + 1, e.messages, e.asked);
  }

  lemma {:induction false} CallMessagesAppend(a: seq<Call>, b: seq<Call>)
    ensures CallMessages(a + b) == CallMessages(a) + CallMessages(b)
  {
    if a != [] {
      assert (a + b)[0] == a[0];
      assert (a + b)[1..] == a[1..] + b;
      CallMessagesAppend(a[1..], b);
      var head := if a[0].Replied? then a[0].messages else [];
      calc {
        CallMessages(a + b);
        head + CallMessages(a[1..] + b);
        head + (CallMessages(a[1..]) + CallMessages(b));
        (head + CallMessages(a[1..])) + CallMessages(b);
      }
    } else {
      assert a + b == b;
    }
  }

  /**
   * A finished loop made between one call and the number of calls
   * available, and its `allMessages` is what those calls exchanged,
   * concatenated in call order.
   */
  lemma {:induction false} ConverseCollects(allow: bool, calls: seq<Call>, answers: seq<string>, allMessages: seq<Value>,
                                            messages: seq<Message>, iterations: nat, asked: seq<Value>)
    ensures var e := Converse(allow, calls, answers, allMessages, messages, iterations, asked);
      e.LoopDone? ==>
        iterations < e.iterations <= iterations + |calls|
        && e.allMessages == allMessages + CallMessages(calls[..e.iterations - iterations])
    decreases |calls|
  {
    if calls != [] {
      var t := TakeTurn(allow, calls[0], answers, allMessages, messages, asked);
      TurnCollects(allow, calls[0], answers, allMessages, messages, asked);
      if t.Next? {
        assert CallMessages([calls[0]]) == calls[0].messages by {
          assert [calls[0]][1..] == [];
        }
        if t.goOn {
          ConverseCollects(allow, calls[1..], t.answers, t.allMessages, t.messages, iterations + 1, t.asked);
          var e := Converse(allow, calls, answers, allMessages, messages, iterations, asked);
          if e.LoopDone? {
            var k := e.iterations - iterations;
            assert calls[..k] == [calls[0]] + calls[1..][..k - 1];
            CallMessagesAppend([calls[0]], calls[1..][..k - 1]);
          }
        } else {
          assert calls[..1] == [calls[0]];
        }
      }
    }
  }

  /**
   * A finished loop's conversation: the messages it started from, then one
   * assistant message per call and one user message per question, with no
   * more questions than answers.
   */
  lemma {:induction false} ConverseConversation(allow: bool, calls: seq<Call>, answers: seq<string>, allMessages: seq<Value>,
                                                messages: seq<Message>, iterations: nat, asked: seq<Value>)
    ensures var e := Converse(allow, calls, answers, allMessages, messages, iterations, asked);
      e.LoopDone? ==>
        e.iterations > iterations
        && |asked| <= |e.asked| <= |asked| + |answers|
        && |e.messages| == |messages| + (e.iterations - iterations) + (|e.asked| - |asked|)
        && e.messages[..|messages|] == messages
    decreases |calls|
  {
    if calls != [] {
      var t := TakeTurn(allow, calls[0], answers, allMessages, messages, asked);
      TurnCollects(allow, calls[0], answers, allMessages, messages, asked);
      TurnRecords(allow, calls[0], answers, allMessages, messages, asked);
      if t.Next? && t.goOn {
        ConverseConversation(allow, calls[1..], t.answers, t.allMessages, t.messages, iterations + 1, t.asked);
        var e := Converse(allow, calls, answers, allMessages, messages, iterations, asked);
        if e.LoopDone? {
          assert e.messages[..|messages|] == t.messages[..|messages|];
        }
      }
    }
  }

  /** The call that ends the loop said `gotToNextStep` and had no permitted question pending. */
  lemma {:induction false} ConverseExit(allow: bool, calls: seq<Call>, answers: seq<string>, allMessages: seq<Value>,
                                        messages: seq<Message>, iterations: nat, asked: seq<Value>)
    ensures var e := Converse(allow, calls, answers, allMessages, messages, iterations, asked);
      e.LoopDone? ==>
        iterations < e.iterations <= iterations + |calls|
        && SaidDone(calls[e.iterations - iterations - 1], allow)
    decreases |calls|
  {
    if calls != [] {
      var t := TakeTurn(allow, calls[0], answers, allMessages, messages, asked);
      TurnCollects(allow, calls[0], answers, allMessages, messages, asked);
      TurnGoesOn(allow, calls[0], answers, allMessages, messages, asked);
      if t.Next? && t.goOn {
        ConverseExit(allow, calls[1..], t.answers, t.allMessages, t.messages, iterations + 1, t.asked);
        var e := Converse(allow, calls, answers, allMessages, messages, iterations, asked);
        assert e == Converse(allow, calls[1..], t.answers, t.allMessages, t.messages, iterations + 1, t.asked);
        if e.LoopDone? {
          assert calls[e.iterations - iterations - 1] == calls[1..][e.iterations - (iterations + 1) - 1];
        }
      }
    }
  }

  /**
   * A completed node: one more call than loop iterations, the last call
   * being the formatting one; it was given every message the loop's calls
   * exchanged, in call order, followed by the single conversion request,
   * and its result is what the node returns. The conversation opened with
   * the one `inputData` message.
   */
  lemma CompletedNode(step: Value, stepInput: Value, outputSchemaJson: string, calls: seq<Call>, answers: seq<string>)
    ensures var o := Execute(step, stepInput, outputSchemaJson, calls, answers);
      o.Completed? ==>
        2 <= o.calls <= |calls|
        && o.finalMessages == CallMessages(calls[..o.calls - 1]) + [FormatRequest(outputSchemaJson)]
        && calls[o.calls - 1].Replied? && o.result == calls[o.calls - 1].result
        && |o.conversation| == 1 + (o.calls - 1) + |o.asked|
        && o.conversation[0] == FirstMessage(stepInput)
  {
    if !Nullish(step) {
      LoopThenFormat(AllowsInteraction(Opt(step, "inputSource")), FirstMessage(stepInput), calls, answers, outputSchemaJson);
    }
  }

  /** CompletedNode for a loop opened by the message `first`. */
  lemma LoopThenFormat(allow: bool, first: Message, calls: seq<Call>, answers: seq<string>, outputSchemaJson: string)
    ensures var o := Finish(Converse(allow, calls, answers, [], [first], 0, []), outputSchemaJson, calls);
      o.Completed? ==>
        2 <= o.calls <= |calls|
        && o.finalMessages == CallMessages(calls[..o.calls - 1]) + [FormatRequest(outputSchemaJson)]
        && calls[o.calls - 1].Replied? && o.result == calls[o.calls - 1].result
        && |o.conversation| == 1 + (o.calls - 1) + |o.asked|
        && o.conversation[0] == first
  {
    var e := Converse(allow, calls, answers, [], [first], 0, []);
    ConverseCollects(allow, calls, answers, [], [first], 0, []);
    ConverseConversation(allow, calls, answers, [], [first], 0, []);
    if e.LoopDone? {
      assert [] + CallMessages(calls[..e.iterations]) == CallMessages(calls[..e.iterations]);
    }
    FinishCompleted(e, outputSchemaJson, calls, first);
  }

  /** The formatting call of a finished loop sees the loop's messages and returns its own result. */
  lemma FinishCompleted(e: LoopEnd, outputSchemaJson: string, calls: seq<Call>, first: Message)
    requires e.LoopDone? ==>
      0 < e.iterations <= |calls| && e.allMessages == CallMessages(calls[..e.iterations])
      && |e.messages| == 1 + e.iterations + |e.asked| && e.messages[..1] == [first]
    ensures var o := Finish(e, outputSchemaJson, calls);
      o.Completed? ==>
        2 <= o.calls <= |calls|
        && o.finalMessages == CallMessages(calls[..o.calls - 1]) + [FormatRequest(outputSchemaJson)]
        && calls[o.calls - 1].Replied? && o.result == calls[o.calls - 1].result
        && |o.conversation| == 1 + (o.calls - 1) + |o.asked|
        && o.conversation[0] == first
  {
    if e.LoopDone? {
      assert e.messages[0] == e.messages[..1][0];
    }
  }

  /**
   * The loop of a completed node ended on the call just before the
   * formatting one, whose `agentResponse` said `gotToNextStep` with no
   * permitted question pending.
   */
  lemma NodeStopsWhenToldTo(step: Value, stepInput: Value, outputSchemaJson: string, calls: seq<Call>, answers: seq<string>)
    ensures var o := Execute(step, stepInput, outputSchemaJson, calls, answers);
      o.Completed? ==>
        2 <= o.calls <= |calls| && SaidDone(calls[o.calls - 2], AllowsInteraction(Opt(step, "inputSource")))
  {
    if !Nullish(step) {
      LoopThenExit(AllowsInteraction(Opt(step, "inputSource")), FirstMessage(stepInput), calls, answers, outputSchemaJson);
    }
  }

  /** NodeStopsWhenToldTo for a loop opened by the message `first`. */
  lemma LoopThenExit(allow: bool, first: Message, calls: seq<Call>, answers: seq<string>, outputSchemaJson: string)
    ensures var o := Finish(Converse(allow, calls, answers, [], [first], 0, []), outputSchemaJson, calls);
      o.Completed? ==> 2 <= o.calls <= |calls| && SaidDone(calls[o.calls - 2], allow)
  {
    ConverseExit(allow, calls, answers, [], [first], 0, []);
    FinishAfterExit(Converse(allow, calls, answers, [], [first], 0, []), outputSchemaJson, calls, allow);
  }

  /** The formatting call follows the call that ended the loop. */
  lemma FinishAfterExit(e: LoopEnd, outputSchemaJson: string, calls: seq<Call>, allow: bool)
    requires e.LoopDone? ==> 0 < e.iterations <= |calls| && SaidDone(calls[e.iterations - 1], allow)
    ensures var o := Finish(e, outputSchemaJson, calls);
      o.Completed? ==> 2 <= o.calls <= |calls| && SaidDone(calls[o.calls - 2], allow)
  {
  }

  /** When the step's source forbids interaction, no question is put to the human. */
  lemma {:induction false} SilentConverse(calls: seq<Call>, answers: seq<string>, allMessages: seq<Value>,
                                          messages: seq<Message>, iterations: nat, asked: seq<Value>)
    ensures var e := Converse(false, calls, answers, allMessages, messages, iterations, asked);
      e.LoopDone? ==> e.asked == asked
    decreases |calls|
  {
    if calls != [] {
      var t := TakeTurn(false, calls[0], answers, allMessages, messages, asked);
      TurnCollects(false, calls[0], answers, allMessages, messages, asked);
      TurnSilent(calls[0], answers, allMessages, messages, asked);
      if t.Next? && t.goOn {
        SilentConverse(calls[1..], t.answers, t.allMessages, t.messages, iterations + 1, t.asked);
      }
    }
  }

  /** Only an unset or `USER_INPUT` source lets the node ask the human. */
  lemma QuestionsOnlyWhenAllowed(step: Value, stepInput: Value, outputSchemaJson: string, calls: seq<Call>, answers: seq<string>)
    requires !AllowsInteraction(Opt(step, "inputSource"))
    ensures var o := Execute(step, stepInput, outputSchemaJson, calls, answers);
      o.Completed? ==> o.asked == []
  {
    if !Nullish(step) {
      SilentConverse(calls, answers, [], [FirstMessage(stepInput)], 0, []);
    }
  }
}
