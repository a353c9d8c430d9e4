/** The search `Array.prototype.find` performs, shared by the modules that call it. */
module Arrays {
  import opened Wrappers

  /** The index of the first element at or after `from` that passes `test`, or `None` when none does. */
  function FindIndex<T>(s: seq<T>, test: T -> bool, from: nat): (r: Option<nat>)
    requires from <= |s|
    ensures r.Some? ==> from <= r.value < |s| && test(s[r.value])
    ensures r.Some? ==> forall i | from <= i < r.value :: !test(s[i])
    ensures r.None? ==> forall i | from <= i < |s| :: !test(s[i])
    decreases |s| - from
  {
    if from == |s| then None
    else if test(s[from]) then Some(from)
    else FindIndex(s, test, from + 1)
  }
}
