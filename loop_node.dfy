/**
 * The loop node (src/nodes/Loop.ts): locates an array in the step input,
 * optionally through a dotted path, and runs a child node on each element
 * in turn, stopping at the first failure. Every error ends the process,
 * which the model reports as a `Terminated` outcome. The child node is
 * named by a `Child` value and its answers come from an oracle sequence,
 * consumed one per call.
 */
module Loop {
  import opened Wrappers
  import opened Values
  import opened Strings

  /** The identity of a child node. */
  datatype Child = Child(name: string)

  /** A loop node as constructed: its child and its optional array path. */
  datatype LoopNode = LoopNode(childNode: Option<Child>, arrayPath: Option<string>)

  /** The run parameters: the step, its input and the call-time overrides. */
  datatype RunParams = RunParams(step: Value, stepInput: Value, childNode: Option<Child>, arrayPath: Option<string>)

  /** One call of a child node's `execute`, with the parameters it received. */
  datatype Invocation = Invocation(child: Child, step: Value, stepInput: Value)

  /**
   * The end of `execute`: the results, or the message of the error that
   * ended the process, each with the child calls made; `Unfinished` when
   * the child's answers ran out.
   */
  datatype Outcome =
    | Done(results: seq<Value>, calls: seq<Invocation>)
    | Terminated(message: string, calls: seq<Invocation>)
    | Unfinished

  const MissingChild := "LoopNode requires a childNode to execute"

  /** A string option as JavaScript tests it: present and non-empty. */
  predicate Given(s: Option<string>)
  {
    s.Some? && s.value != ""
  }

  /** `params.childNode || this.childNode` */
  function EffectiveChild(node: LoopNode, params: RunParams): Option<Child>
  {
    if params.childNode.Some? then params.childNode else node.childNode
  }

  /** `params.arrayPath || this.arrayPath` */
  function EffectivePath(node: LoopNode, params: RunParams): Option<string>
  {
    if Given(params.arrayPath) then params.arrayPath else node.arrayPath
  }

  /** The loop guard of the path walk: a truthy object that has the segment. */
  predicate CanDescend(current: Value, part: string)
  {
    Truthy(current) && TypeOf(current) == "object" && Has(current, part)
  }

  /** Descends through `parts` one segment at a time; `None` where a segment cannot be read. */
  function Walk(current: Value, parts: seq<string>): (r: Option<Value>)
    ensures parts == [] ==> r == Some(current)
    ensures r.Some? && parts != [] ==> CanDescend(current, parts[0])
    decreases |parts|
  {
    if parts == [] then Some(current)
    else if CanDescend(current, parts[0]) then Walk(Get(current, parts[0]).value, parts[1..])
    else None
  }

  function NotFound(path: string): string
  {
    "Array path '" + path + "' not found in input data"
  }

  function NotAnArray(v: Value, path: Option<string>): string
  {
    "Expected array but got " + TypeOf(v) + (if Given(path) then " at path '" + path.value + "'" else "")
  }

  /** The array the node iterates over, or the message of the error raised instead. */
  function Locate(input: Value, path: Option<string>): (r: Result<seq<Value>>)
  {
    var located :=
      if Given(path) then
        match Walk(input, Split(path.value, '.'))
        case None => Err(NotFound(path.value))
        case Some(v) => Ok(v)
      else Ok(input);
    match located
    case Err(m) => Err(m)
    case Ok(v) => if v.Arr? then Ok(v.items) else Err(NotAnArray(v, path))
  }

  /**
   * The sequential map from item `i` on, with the results and calls so
   * far; the first child error ends it.
   */
  function MapFrom(child: Child, step: Value, items: seq<Value>, i: nat, replies: seq<Result<Value>>,
                   results: seq<Value>, calls: seq<Invocation>): (r: Outcome)
    requires i <= |items|
    ensures r.Done? ==> |r.results| == |results| + |items| - i && results <= r.results && |r.calls| == |calls| + |items| - i
    ensures r.Terminated? ==> |calls| < |r.calls| <= |calls| + |items| - i
    decreases |items| - i
  {
    if i == |items| then Done(results, calls)
    else if replies == [] then Unfinished
    else
      var calls' := calls + [Invocation(child, step, items[i])];
      match replies[0]
      case Err(m) => Terminated(m, calls')
      case Ok(v) => MapFrom(child, step, items, i + 1, replies[1..], results + [v], calls')
  }

  /** `LoopNode.execute` as a function of the node, the parameters and the child's answers. */
  function Run(node: LoopNode, params: RunParams, replies: seq<Result<Value>>): (r: Outcome)
    ensures EffectiveChild(node, params).None? ==> r == Terminated(MissingChild, [])
    ensures r.Done? ==>
      Locate(params.stepInput, EffectivePath(node, params)).Ok? &&
      |r.results| == |r.calls| == |Locate(params.stepInput, EffectivePath(node, params)).value|
  {
    match EffectiveChild(node, params)
    case None => Terminated(MissingChild, [])
    case Some(child) =>
      match Locate(params.stepInput, EffectivePath(node, params))
      case Err(m) => Terminated(m, [])
      case Ok(items) => MapFrom(child, params.step, items, 0, replies, [], [])
  }

  /** The path walk of `execute`: reassigns `current` segment by segment. */
  method WalkPath(input: Value, parts: seq<string>) returns (r: Option<Value>)
    ensures r == Walk(input, parts)
  {
    var current := input;
    var i := 0;
    while i < |parts|
      invariant 0 <= i <= |parts|
      invariant Walk(current, parts[i..]) == Walk(input, parts)
    {
      if !CanDescend(current, parts[i]) {
        return None;
      }
      assert parts[i..][1..] == parts[i + 1..];
      current := Get(current, parts[i]).value;
      i := i + 1;
    }
    r := Some(current);
  }

  /** `LoopNode.execute`: locates the array, then runs the child on each item in order. */
  method Execute(node: LoopNode, params: RunParams, replies: seq<Result<Value>>) returns (r: Outcome)
    ensures r == Run(node, params, replies)
  {
    var child := EffectiveChild(node, params);
    var arrayPath := EffectivePath(node, params);
    if child.None? {
      return Terminated(MissingChild, []);
    }
    var inputArray := params.stepInput;
    if Given(arrayPath) {
      var found := WalkPath(params.stepInput, Split(arrayPath.value, '.'));
      if found.None? {
        return Terminated(NotFound(arrayPath.value), []);
      }
      inputArray := found.value;
    }
    if !inputArray.Arr? {
      return Terminated(NotAnArray(inputArray, arrayPath), []);
    }
    var items := inputArray.items;
    var results: seq<Value> := [];
    var calls: seq<Invocation> := [];
    var rest := replies;
    for i := 0 to |items|
      invariant MapFrom(child.value, params.step, items, i, rest, results, calls) == Run(node, params, replies)
    {
      if rest == [] {
        return Unfinished;
      }
      calls := calls + [Invocation(child.value, params.step, items[i])];
      if rest[0].Err? {
        return Terminated(rest[0].error, calls);
      }
      results := results + [rest[0].value];
      rest := rest[1..];
    }
    r := Done(results, calls);
  }

  /**
   * A finished map from item `i` on produced one result per remaining
   * item, each the child's answer to the call on that item, with the
   * calls made in item order.
   */
  lemma {:induction false} MapFromDone(child: Child, step: Value, items: seq<Value>, i: nat, replies: seq<Result<Value>>,
                                       results: seq<Value>, calls: seq<Invocation>)
    requires i <= |items| && |results| == |calls| == i
    requires MapFrom(child, step, items, i, replies, results, calls).Done?
    ensures var r := MapFrom(child, step, items, i, replies, results, calls);
      |r.results| == |r.calls| == |items|
      && r.results[..i] == results && r.calls[..i] == calls
      && |items| - i <= |replies|
      && (forall j | i <= j < |items| ::
            replies[j - i] == Ok(r.results[j]) && r.calls[j] == Invocation(child, step, items[j]))
    decreases |items| - i
  {
    if i < |items| {
      var calls' := calls + [Invocation(child, step, items[i])];
      var v := replies[0].value;
      MapFromDone(child, step, items, i + 1, replies[1..], results + [v], calls');
      var r := MapFrom(child, step, items, i, replies, results, calls);
      assert r.results[..i] == (r.results[..i + 1])[..i];
      assert r.calls[..i] == (r.calls[..i + 1])[..i];
    }
  }

  /**
   * A map stopped by a child error at item `j` made exactly the calls up
   * to and including item `j`, after answers that were all successes:
   * no later item runs.
   */
  lemma {:induction false} MapFromTerminated(child: Child, step: Value, items: seq<Value>, i: nat, replies: seq<Result<Value>>,
                                             results: seq<Value>, calls: seq<Invocation>)
    requires i <= |items| && |calls| == i
    requires MapFrom(child, step, items, i, replies, results, calls).Terminated?
    ensures var r := MapFrom(child, step, items, i, replies, results, calls);
      var j := |r.calls| - 1;
      i <= j < |items| && j - i < |replies| && r.calls[..i] == calls
      && replies[j - i] == Err(r.message)
      && (forall l | 0 <= l < j - i :: replies[l].Ok?)
      && (forall l | i <= l <= j :: r.calls[l] == Invocation(child, step, items[l]))
    decreases |items| - i
  {
    if replies[0].Ok? {
      var calls' := calls + [Invocation(child, step, items[i])];
      MapFromTerminated(child, step, items, i + 1, replies[1..], results + [replies[0].value], calls');
      var r := MapFrom(child, step, items, i, replies, results, calls);
      assert r.calls[..i] == (r.calls[..i + 1])[..i];
    }
  }

  /**
   * On success the result has one entry per element of the located array,
   * the child's output for that element, and the child was called on the
   * elements in order with the step passed through.
   */
  lemma DoneMapsEveryItem(node: LoopNode, params: RunParams, replies: seq<Result<Value>>)
    requires Run(node, params, replies).Done?
    ensures var r := Run(node, params, replies);
      var items := Locate(params.stepInput, EffectivePath(node, params)).value;
      Locate(params.stepInput, EffectivePath(node, params)).Ok? && EffectiveChild(node, params).Some?
      && |r.results| == |items| == |r.calls| && |items| <= |replies|
      && (forall j | 0 <= j < |items| ::
            replies[j] == Ok(r.results[j])
            && r.calls[j] == Invocation(EffectiveChild(node, params).value, params.step, items[j]))
  {
    var items := Locate(params.stepInput, EffectivePath(node, params)).value;
    MapFromDone(EffectiveChild(node, params).value, params.step, items, 0, replies, [], []);
  }

  /**
   * The first child failure ends the process with its message: the
   * elements before it all succeeded and no element after it was given to
   * the child.
   */
  lemma FailFast(node: LoopNode, params: RunParams, replies: seq<Result<Value>>)
    requires Run(node, params, replies).Terminated? && Run(node, params, replies).calls != []
    ensures var r := Run(node, params, replies);
      var items := Locate(params.stepInput, EffectivePath(node, params)).value;
      var j := |r.calls| - 1;
      Locate(params.stepInput, EffectivePath(node, params)).Ok?
      && j < |items| && j < |replies| && replies[j] == Err(r.message)
      && (forall l | 0 <= l < j :: replies[l].Ok?)
      && (forall l | 0 <= l <= j :: r.calls[l].stepInput == items[l])
  {
    var items := Locate(params.stepInput, EffectivePath(node, params)).value;
    MapFromTerminated(EffectiveChild(node, params).value, params.step, items, 0, replies, [], []);
  }

  /** An empty array yields `[]` without running the child. */
  lemma EmptyArrayRunsNothing(node: LoopNode, params: RunParams, replies: seq<Result<Value>>)
    requires EffectiveChild(node, params).Some?
    requires Locate(params.stepInput, EffectivePath(node, params)) == Ok([])
    ensures Run(node, params, replies) == Done([], [])
  {
  }

  /** Without an array path the whole input is the array: any array input is mapped, anything else fails. */
  lemma NoPathTakesInput(node: LoopNode, params: RunParams)
    requires !Given(EffectivePath(node, params))
    ensures params.stepInput.Arr? ==> Locate(params.stepInput, EffectivePath(node, params)) == Ok(params.stepInput.items)
    ensures !params.stepInput.Arr? ==>
      Locate(params.stepInput, EffectivePath(node, params)) == Err("Expected array but got " + TypeOf(params.stepInput))
  {
  }

  /**
   * Errors raised before any element runs: a missing child, a path that
   * cannot be followed, a located value that is not an array.
   */
  lemma SetupErrors(node: LoopNode, params: RunParams, replies: seq<Result<Value>>)
    ensures var child, path := EffectiveChild(node, params), EffectivePath(node, params);
      (child.None? ==> Run(node, params, replies) == Terminated(MissingChild, []))
      && (child.Some? && Given(path) ==>
            match Walk(params.stepInput, Split(path.value, '.'))
            case None => Run(node, params, replies) == Terminated(NotFound(path.value), [])
            case Some(v) =>
              !v.Arr? ==>
                Run(node, params, replies)
                == Terminated("Expected array but got " + TypeOf(v) + " at path '" + path.value + "'", []))
  {
    var child, path := EffectiveChild(node, params), EffectivePath(node, params);
    if child.Some? && Given(path) {
      match Walk(params.stepInput, Split(path.value, '.'))
      case None =>
        assert Locate(params.stepInput, path) == Err(NotFound(path.value));
        assert Run(node, params, replies) == Terminated(NotFound(path.value), []);
      case Some(v) =>
        if !v.Arr? {
          var m := NotAnArray(v, path);
          assert m == "Expected array but got " + TypeOf(v) + " at path '" + path.value + "'";
          assert Locate(params.stepInput, path) == Err(m);
          assert Run(node, params, replies) == Terminated(m, []);
        }
    }
  }

  /**
   * The walk reads the segments in turn: it fails at the first segment
   * that a non-object, a falsy value or an object without that key
   * cannot supply, and otherwise ends at the value read last.
   */
  lemma {:induction false} WalkReadsEachSegment(current: Value, parts: seq<string>, more: seq<string>)
    ensures Walk(current, parts + more)
      == match Walk(current, parts)
         case None => None
         case Some(v) => Walk(v, more)
    decreases |parts|
  {
    if parts == [] {
      assert parts + more == more;
    } else {
      assert (parts + more)[1..] == parts[1..] + more;
      if CanDescend(current, parts[0]) {
        WalkReadsEachSegment(Get(current, parts[0]).value, parts[1..], more);
      }
    }
  }

  /** A one-segment path reads that property of an object that has it. */
  lemma SingleSegment(input: Value, key: string)
    requires '.' !in key && key != ""
    requires input.Obj? && key in input.rec.fields
    ensures Walk(input, Split(key, '.')) == Some(input.rec.fields[key])
  {
  }

  /**
   * A call-time child or path that is given replaces the constructor's:
   * two nodes that differ only there behave the same under such a call.
   */
  lemma CallTimeOverrides(node1: LoopNode, node2: LoopNode, params: RunParams, replies: seq<Result<Value>>)
    requires params.childNode.Some? || node1.childNode == node2.childNode
    requires Given(params.arrayPath) || node1.arrayPath == node2.arrayPath
    ensures Run(node1, params, replies) == Run(node2, params, replies)
  {
  }
}
