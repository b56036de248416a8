/**
 * The host functions of `juice/builtin_function.rs` that compute values:
 * `length`, `range` and `assert`.  Each takes the argument vector; reading
 * an argument past its end is a Rust panic.
 */
module Builtins {
  import opened Wrappers
  import opened Runtime
  import opened Utf8

  const BoolMessage := "Invalid operands for boolean operation"
  const LengthMessage := "Cannot get length of non-string/array value"

  // ------------------------------------------------------------------ length

  function FirstArgument(values: seq<Value>): set<Array>
  {
    if |values| > 0 then Footprint(values[0]) else {}
  }

  /** `length(values)`: bytes of a string, elements of an array, an error for anything else. */
  function Length(values: seq<Value>): (r: Outcome<Value>)
    reads FirstArgument(values)
    ensures |values| == 0 ==> r == Panic(MissingArgument(0, 0))
    ensures |values| > 0 && values[0].String? ==> r == Ok(Number(Utf8Length(values[0].s)))
    ensures |values| > 0 && values[0].ArrayV? ==> r == Ok(Number(|values[0].arr.elements|))
    ensures |values| > 0 && !values[0].String? && !values[0].ArrayV? ==> r == Err(LengthMessage)
    ensures r.Ok? ==> r.value.Number? && r.value.n >= 0
  {
    if |values| == 0 then Panic(MissingArgument(0, 0))
    else
      match values[0]
      case String(s) => Ok(Number(Utf8Length(s)))
      case ArrayV(a) => Ok(Number(|a.elements|))
      case _ => Err(LengthMessage)
  }

  // ------------------------------------------------------------------- range

  /** `start`, `start + step`, … while below `end`: the next number after the last would reach `end`. */
  function RangeSeq(start: int, end: int, step: int): (xs: seq<int>)
    requires step > 0 || start >= end
    ensures start >= end ==> xs == []
    ensures forall k :: 0 <= k < |xs| ==> xs[k] == start + k * step && xs[k] < end
    ensures start < end ==> |xs| > 0 && start + |xs| * step >= end
    decreases if start < end then end - start else 0
  {
    if start >= end then []
    else
      var rest := RangeSeq(start + step, end, step);
      NextMultiple(|rest|, step);
      forall k | 0 <= k < |rest|
        ensures rest[k] == start + (k + 1) * step
      {
        NextMultiple(k, step);
      }
      [start] + rest
  }

  lemma NextMultiple(k: int, step: int)
    ensures (k + 1) * step == k * step + step
  {
  }

  /** The step `range` would use, when the arguments are numbers. */
  function StepOf(values: seq<Value>): int
  {
    if |values| == 3 && values[2].Number? then values[2].n else 1
  }

  /**
   * What the source's loop needs in order to end: a positive step whenever
   * `start < end` (with a step of zero or less the loop never stops).
   */
  predicate Terminates(values: seq<Value>)
  {
    |values| >= 2 && values[0].Number? && values[1].Number? && values[0].n < values[1].n ==> StepOf(values) > 0
  }

  /** The errors and panics `range` reports before it loops, in the order it reads its arguments. */
  function RangeError(values: seq<Value>): (r: Option<Outcome<Value>>)
  {
    if |values| == 0 then Some(Panic(MissingArgument(0, 0)))
    else if !values[0].Number? then Some(Err(NumberMessage))
    else if |values| == 1 then Some(Panic(MissingArgument(1, 1)))
    else if !values[1].Number? then Some(Err(NumberMessage))
    else if |values| == 3 && !values[2].Number? then Some(Err(NumberMessage))
    else None
  }

  /** `range(values)`: a new array of the numbers from `start` up to, not including, `end`. */
  method Range(values: seq<Value>) returns (r: Outcome<Value>)
    requires Terminates(values)
    ensures RangeError(values).Some? ==> r == RangeError(values).value
    ensures RangeError(values).None? ==>
      r.Ok? && r.value.ArrayV? && fresh(r.value.arr) && r.value.arr.wrapper == null
      && r.value.arr.elements == Numbers(RangeSeq(values[0].n, values[1].n, StepOf(values)))
  {
    if RangeError(values).Some? {
      return RangeError(values).value;
    }
    var start := values[0].n;
    var end := values[1].n;
    var step := if |values| == 3 then values[2].n else 1;
    var range: seq<Value> := [];
    ghost var done: seq<int> := [];
    var x := start;
    while x < end
      invariant step > 0 || x >= end
      invariant range == Numbers(done) && done + RangeSeq(x, end, step) == RangeSeq(start, end, step)
      decreases end - x
    {
      RangeAdvance(done, x, end, step);
      NumbersAppend(done, [x]);
      range := range + [Number(x)];
      done := done + [x];
      x := x + step;
    }
    var a := new Array(range);
    r := Ok(ArrayV(a));
  }

  /** One turn of `range`'s loop: the number `x` moves from what is left to what is done. */
  lemma RangeAdvance(done: seq<int>, x: int, end: int, step: int)
    requires step > 0 && x < end
    ensures done + RangeSeq(x, end, step) == (done + [x]) + RangeSeq(x + step, end, step)
  {
    assert RangeSeq(x, end, step) == [x] + RangeSeq(x + step, end, step);
  }

  /** Each integer as a Number value. */
  function Numbers(xs: seq<int>): (vs: seq<Value>)
    ensures |vs| == |xs| && forall k :: 0 <= k < |xs| ==> vs[k] == Number(xs[k])
  {
    seq(|xs|, k requires 0 <= k < |xs| => Number(xs[k]))
  }

  lemma NumbersAppend(a: seq<int>, b: seq<int>)
    ensures Numbers(a + b) == Numbers(a) + Numbers(b)
  {
  }

  // ------------------------------------------------------------------ assert

  /**
   * `assert(values)`: Void when `equal` (the interpreter's `eq`, which hands
   * back a Bool value) says the first two arguments are equal; a panic whose
   * text shows both (`display`) when it says they differ.  The misspelt
   * "fialed" is the program's own text.
   */
  function Assert(values: seq<Value>, equal: (Value, Value) -> Outcome<Value>, display: Value -> string): (r: Outcome<Value>)
    ensures |values| < 2 ==> r == Panic(MissingArgument(|values|, |values|))
    ensures |values| >= 2 && equal(values[0], values[1]) == Ok(Bool(true)) ==> r == Ok(Void)
    ensures |values| >= 2 && equal(values[0], values[1]) == Ok(Bool(false)) ==>
      r == Panic("Assertion fialed: " + display(values[0]) + " == " + display(values[1]))
    ensures |values| >= 2 && equal(values[0], values[1]).Ok? && !equal(values[0], values[1]).value.Bool? ==>
      r == Err(BoolMessage)
    ensures |values| >= 2 && !equal(values[0], values[1]).Ok? ==> r == equal(values[0], values[1])
    ensures r.Ok? ==> r.value == Void
  {
    if |values| < 2 then Panic(MissingArgument(|values|, |values|))
    else
      match equal(values[0], values[1])
      case Ok(Bool(true)) => Ok(Void)
      case Ok(Bool(false)) => Panic("Assertion fialed: " + display(values[0]) + " == " + display(values[1]))
      case Ok(_) => Err(BoolMessage)
      case Fail(f) => Fail(f)
      case Panic(p) => Panic(p)
  }
}
