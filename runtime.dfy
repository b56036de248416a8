/**
 * The later revision of the juice runtime: `juice/object.rs` (field and
 * method tables), `juice/array.rs` (element vectors and their native
 * methods), `juice/env.rs` (a stack of frames), `juice/method.rs`,
 * `juice/native_function.rs` and `juice/native_method.rs` (the three kinds
 * of callable and their arity check).
 *
 * Shared `Rc<RefCell<..>>` cells are Dafny objects (`Object`, `Array`,
 * `Cell`), so every copy of a value that holds one sees the same state.
 * Plain `Clone` structs (`Method`, `NativeFunction`, `NativeMethod`) are
 * datatypes.  Host function pointers are names; what a name does is a
 * `host` function passed to each call.  Numbers are unbounded integers.  A Rust panic (indexing past the end of an
 * argument vector) is the `Panic` outcome.
 */
module Runtime {
  import opened Wrappers
  import A = Ast
  import opened Binding

  // ------------------------------------------------------------------ values

  datatype Value =
    | Number(n: int)
    | String(s: string)
    | Bool(b: bool)
    | ObjectV(obj: Object)
    | MethodV(m: Method)
    | NativeMethodV(native: NativeMethod)
    | NativeFunctionV(host: NativeFunction)
    | ArrayV(arr: Array)
    | Null
    | Void

  datatype Flow = Return(returned: Value) | Break | Continue | Error(message: string)

  datatype Outcome<T> = Ok(value: T) | Fail(flow: Flow) | Panic(reason: string)

  function Err<T>(message: string): Outcome<T> { Fail(Error(message)) }

  const ArrayMessage := "Invalid operands for array operation"
  const NumberMessage := "Invalid operands for number operation"
  const IndexMessage := "Index out of bounds"
  const UnboundMessage := "Method not bound to an object"

  /** The decimal digits of `n`, as `format!("{}", n)` writes them. */
  function Decimal(n: nat): (s: string)
    ensures |s| >= 1 && forall i :: 0 <= i < |s| ==> '0' <= s[i] <= '9'
    decreases n
  {
    if n < 10 then [('0' as int + n) as char]
    else Decimal(n / 10) + [('0' as int + n % 10) as char]
  }

  /** Rust's panic message for `values[index]` on a vector of length `count`. */
  function MissingArgument(index: nat, count: nat): string
  {
    "index out of bounds: the len is " + Decimal(count) + " but the index is " + Decimal(index)
  }

  // ------------------------------------------------------------- callables

  /**
   * The argument-count check shared by every callable: None when the count
   * lies in `[minArity, maxArity]`, otherwise the error text.  With equal
   * bounds the text names the supplied count twice and never the expected one.
   */
  function ArityError(minArity: nat, maxArity: nat, count: nat): (r: Option<string>)
    ensures r.None? <==> minArity <= count <= maxArity
    ensures r.Some? && minArity != maxArity ==>
      r.value == "Expected (" + Decimal(minArity) + ", " + Decimal(maxArity) + "] arguments but got " + Decimal(count)
    ensures r.Some? && minArity == maxArity ==>
      r.value == "Expected " + Decimal(count) + " arguments but got " + Decimal(count)
  {
    if count < minArity || count > maxArity then
      if minArity != maxArity then
        Some("Expected (" + Decimal(minArity) + ", " + Decimal(maxArity) + "] arguments but got " + Decimal(count))
      else
        Some("Expected " + Decimal(count) + " arguments but got " + Decimal(count))
    else None
  }

  /** With equal bounds the message depends on the supplied count alone. */
  lemma ArityMessageIgnoresExpected(k: nat, j: nat, count: nat)
    requires count != k && count != j
    ensures ArityError(k, k, count) == ArityError(j, j, count)
    ensures ArityError(k, k, count).Some?
  {
  }

  /**
   * A host function with its accepted argument counts.  `name` stands for
   * the Rust function pointer; what the function does is the `host`
   * parameter of `Call`.
   */
  datatype NativeFunction = NativeFunction(name: string, minArity: nat, maxArity: nat)
  {
    /** Checks the argument count, then hands the arguments to the host function unchanged. */
    function Call(arguments: seq<Value>, host: (string, seq<Value>) -> Outcome<Value>): (r: Outcome<Value>)
      ensures ArityError(minArity, maxArity, |arguments|).Some? ==>
        r == Err(ArityError(minArity, maxArity, |arguments|).value)
      ensures minArity <= |arguments| <= maxArity ==> r == host(name, arguments)
    {
      match ArityError(minArity, maxArity, |arguments|)
      case Some(message) => Err(message)
      case None => host(name, arguments)
    }
  }

  /** The code behind a native method: one of the array operations, or a named host function. */
  datatype NativeCode = ArrayCode(op: ArrayOp) | Foreign(name: string)

  /** A native method: its code, the shared cell holding its receiver, and its accepted argument counts. */
  datatype NativeMethod = NativeMethod(code: NativeCode, receiver: Cell, minArity: nat, maxArity: nat)
  {
    /**
     * Checks the argument count, then runs the code on the receiver cell's
     * current value and the unchanged arguments.  `eq` is the value
     * equality that `remove` searches with; `host` is what the named host
     * functions do.
     */
    method Call(arguments: seq<Value>, eq: (Value, Value) -> bool, host: (string, Value, seq<Value>) -> Outcome<Value>)
      returns (r: Outcome<Value>)
      modifies Footprint(receiver.value)
      ensures receiver.value == old(receiver.value)
      ensures ArityError(minArity, maxArity, |arguments|).Some? ==>
        r == Err(ArityError(minArity, maxArity, |arguments|).value)
        && Elements(receiver.value) == old(Elements(receiver.value))
      ensures minArity <= |arguments| <= maxArity && code.Foreign? ==>
        r == host(code.name, receiver.value, arguments) && Elements(receiver.value) == old(Elements(receiver.value))
      ensures minArity <= |arguments| <= maxArity && code.ArrayCode? ==>
        Effect(r, Elements(receiver.value)) == Run(code.op, receiver.value, old(Elements(receiver.value)), arguments, eq)
    {
      var arity := ArityError(minArity, maxArity, |arguments|);
      if arity.Some? {
        r := Err(arity.value);
      } else {
        var self := receiver.value;
        match code
        case Foreign(name) =>
          r := host(name, self, arguments);
        case ArrayCode(op) =>
          r := Array.Dispatch(op, self, arguments, eq);
      }
    }
  }

  /** The `Rc<RefCell<Value>>` that the native methods of one wrapper share as their receiver. */
  class Cell {
    var value: Value

    constructor (value: Value)
      ensures this.value == value
    {
      this.value := value;
    }
  }

  /** A user method: its declaration, the object it is bound to (if any), and its accepted argument counts. */
  datatype Method = Method(declaration: A.MethodDeclaration, receiver: Option<Object>, minArity: nat, maxArity: nat)
  {
    /** A copy bound to `o`; any earlier binding is replaced. */
    function Bind(o: Object): (m: Method)
      ensures m.receiver == Some(o)
      ensures m.declaration == declaration && m.minArity == minArity && m.maxArity == maxArity
    {
      this.(receiver := Some(o))
    }

    /**
     * Pushes a fresh frame, binds `this` and the parameters in it, runs the
     * body (`execute`, given the frame's bindings), pops the frame and maps
     * the body's outcome as a call boundary does.
     */
    method Call(env: Env, arguments: seq<Value>, execute: (seq<A.Statement>, map<string, Value>) -> Outcome<Value>)
      returns (r: Outcome<Value>)
      requires env.Valid()
      modifies env
      ensures env.Valid() && env.stack == old(env.stack)
      ensures r == CallOutcome(this, arguments, execute)
    {
      var arity := ArityError(minArity, maxArity, |arguments|);
      if arity.Some? {
        r := Err(arity.value);
      } else {
        var frame := new Object();
        env.Push(frame);
        var bound := BindCall(frame, arguments);
        var ret := if bound.Ok? then execute(declaration.body, frame.fields) else bound;
        var popped := env.Pop();
        r := Finish(ret);
      }
    }

    /** Defines `this` and then each parameter in `frame`; a name already there aborts. */
    method BindCall(frame: Object, arguments: seq<Value>) returns (r: Outcome<Value>)
      requires frame.fields == map[]
      modifies frame
      ensures receiver.None? ==> r == Err(UnboundMessage)
      ensures receiver.Some? ==>
        var names := BoundNames(declaration.signature.params, |arguments|);
        (FirstRepeatedFrom(names, 0).Some? ==> r == Err("Variable " + FirstRepeatedFrom(names, 0).value + " already defined"))
        && (FirstRepeatedFrom(names, 0).None? ==>
              r == Ok(Void) && frame.fields == Bindings(names, CallValues(receiver.value, declaration.signature.params, arguments)))
    {
      if receiver.None? {
        return Err(UnboundMessage);
      }
      var names := BoundNames(declaration.signature.params, |arguments|);
      var vals := CallValues(receiver.value, declaration.signature.params, arguments);
      r := frame.DefineAll(names, vals);
    }
  }

  /** `Method::new`: both arity bounds are the parameter count, and the method is unbound. */
  function NewMethod(declaration: A.MethodDeclaration): (m: Method)
    ensures m.declaration == declaration && m.receiver.None?
    ensures m.minArity == m.maxArity == |declaration.signature.params|
  {
    Method(declaration, None, |declaration.signature.params|, |declaration.signature.params|)
  }

  /** The values a call binds, matching `BoundNames`: the receiver, then each argument that has a parameter. */
  function CallValues(receiver: Object, params: seq<A.Parameter>, args: seq<Value>): (vals: seq<Value>)
    ensures |vals| == |BoundNames(params, |args|)|
    ensures vals[0] == ObjectV(receiver) && forall i :: 1 <= i < |vals| ==> vals[i] == args[i - 1]
  {
    [ObjectV(receiver)] + args[..if |params| < |args| then |params| else |args|]
  }

  /** Maps a body's outcome to a call's outcome. */
  function Finish(ret: Outcome<Value>): (r: Outcome<Value>)
    ensures r.Fail? ==> r.flow.Error?
    ensures ret.Ok? ==> r == Ok(Void)
    ensures ret.Fail? && ret.flow.Return? ==> r == Ok(ret.flow.returned)
    ensures ret == Fail(Break) ==> r == Err("Break statement outside of loop")
    ensures ret == Fail(Continue) ==> r == Err("Continue statement outside of loop")
    ensures ret.Fail? && ret.flow.Error? ==> r == ret
    ensures ret.Panic? ==> r == ret
  {
    match ret
    case Ok(_) => Ok(Void)
    case Fail(Return(v)) => Ok(v)
    case Fail(Break) => Err("Break statement outside of loop")
    case Fail(Continue) => Err("Continue statement outside of loop")
    case Fail(Error(message)) => Err(message)
    case Panic(p) => Panic(p)
  }

  /** The bindings of a call's frame: `this`, then each parameter that has an argument. */
  function CallFrame(m: Method, arguments: seq<Value>): (frame: map<string, Value>)
    requires m.receiver.Some?
    ensures frame.Keys == set n | n in BoundNames(m.declaration.signature.params, |arguments|)
  {
    Bindings(BoundNames(m.declaration.signature.params, |arguments|), CallValues(m.receiver.value, m.declaration.signature.params, arguments))
  }

  /** What `Method::call` yields, given what the body does in a frame holding given bindings. */
  function CallOutcome(m: Method, arguments: seq<Value>, execute: (seq<A.Statement>, map<string, Value>) -> Outcome<Value>)
    : (r: Outcome<Value>)
  {
    if ArityError(m.minArity, m.maxArity, |arguments|).Some? then Err(ArityError(m.minArity, m.maxArity, |arguments|).value)
    else if m.receiver.None? then Err(UnboundMessage)
    else
      match FirstRepeatedFrom(BoundNames(m.declaration.signature.params, |arguments|), 0)
      case Some(n) => Err("Variable " + n + " already defined")
      case None => Finish(execute(m.declaration.body, CallFrame(m, arguments)))
  }

  /**
   * A call outside the arity bounds fails before the body could run; an
   * unbound method fails next; a repeated parameter name (or one named
   * `this`) fails next; otherwise the body runs in the call's frame.  No
   * Break, Continue or Return ever leaves the call.
   */
  lemma CallOutcomeShape(m: Method, arguments: seq<Value>, execute: (seq<A.Statement>, map<string, Value>) -> Outcome<Value>)
    ensures var r := CallOutcome(m, arguments, execute);
      (r.Fail? ==> r.flow.Error?)
      && (!(m.minArity <= |arguments| <= m.maxArity) ==> r == Err(ArityError(m.minArity, m.maxArity, |arguments|).value))
      && (m.minArity <= |arguments| <= m.maxArity && m.receiver.None? ==> r == Err(UnboundMessage))
      && (m.minArity <= |arguments| <= m.maxArity && m.receiver.Some?
          && Distinct(BoundNames(m.declaration.signature.params, |arguments|)) ==>
            r == Finish(execute(m.declaration.body, CallFrame(m, arguments))))
  {
  }

  /** The call's frame binds `this` to the receiver and each parameter to the argument in its position. */
  lemma {:induction false} CallFrameBinds(m: Method, arguments: seq<Value>)
    requires m.receiver.Some? && Distinct(BoundNames(m.declaration.signature.params, |arguments|))
    ensures var names := BoundNames(m.declaration.signature.params, |arguments|);
      CallFrame(m, arguments)["this"] == ObjectV(m.receiver.value)
      && forall i :: 0 <= i < |names| - 1 ==> CallFrame(m, arguments)[names[i + 1]] == arguments[i]
  {
    var names := BoundNames(m.declaration.signature.params, |arguments|);
    var vals := CallValues(m.receiver.value, m.declaration.signature.params, arguments);
    BindingsDistinct(names, vals);
    assert names[0] == "this" && vals[0] == ObjectV(m.receiver.value);
  }

  // ----------------------------------------------------------------- objects

  /**
   * An object: a method table and a field table.  The frames of `Env` are
   * objects too, with the field table holding their variables.  Method
   * tables hold values, so that native methods and functions sit beside
   * user methods.
   */
  class Object {
    var methods: map<string, Value>
    var fields: map<string, Value>

    constructor ()
      ensures methods == map[] && fields == map[]
    {
      methods := map[];
      fields := map[];
    }

    /** A new object holding a copy of this method table and no fields; later updates to either stay apart. */
    method Instantiate() returns (o: Object)
      ensures fresh(o) && o.methods == methods && o.fields == map[]
    {
      o := new Object();
      o.methods := methods;
    }

    function GetMethod(name: string): (r: Outcome<Value>)
      reads this
      ensures r.Ok? <==> name in methods
      ensures r.Ok? ==> r.value == methods[name]
      ensures !r.Ok? ==> r == Err("Method " + name + " not found")
    {
      if name in methods then Ok(methods[name]) else Err("Method " + name + " not found")
    }

    /** Inserts or replaces a user method. */
    method SetMethod(name: string, m: Method) returns (r: Outcome<Value>)
      modifies this
      ensures r == Ok(Void)
      ensures methods == old(methods)[name := MethodV(m)] && fields == old(fields)
      ensures GetMethod(name) == Ok(MethodV(m))
      ensures forall other :: other != name ==> GetMethod(other) == old(GetMethod(other))
    {
      methods := methods[name := MethodV(m)];
      r := Ok(Void);
    }

    function GetValue(name: string): (r: Outcome<Value>)
      reads this
      ensures r.Ok? <==> name in fields
      ensures r.Ok? ==> r.value == fields[name]
      ensures !r.Ok? ==> r == Err("Field " + name + " not found")
    {
      if name in fields then Ok(fields[name]) else Err("Field " + name + " not found")
    }

    /** Inserts or replaces a field; it creates fields that were never declared. */
    method SetValue(name: string, v: Value) returns (r: Outcome<Value>)
      modifies this
      ensures r == Ok(Void)
      ensures fields == old(fields)[name := v] && methods == old(methods)
      ensures GetValue(name) == Ok(v)
      ensures forall other :: other != name ==> GetValue(other) == old(GetValue(other))
    {
      fields := fields[name := v];
      r := Ok(Void);
    }

    /** Adds a field that is not there yet; a second definition of a name fails and changes nothing. */
    method DefineValue(name: string, v: Value) returns (r: Outcome<Value>)
      modifies this
      ensures methods == old(methods)
      ensures name in old(fields) ==> r == Err("Variable " + name + " already defined") && fields == old(fields)
      ensures name !in old(fields) ==> r == Ok(Void) && fields == old(fields)[name := v]
    {
      if name in fields {
        r := Err("Variable " + name + " already defined");
      } else {
        fields := fields[name := v];
        r := Ok(Void);
      }
    }

    /** Defines each name in order, as a call binds `this` and its parameters; the first repeated name aborts. */
    method DefineAll(names: seq<string>, vals: seq<Value>) returns (r: Outcome<Value>)
      requires |names| == |vals| && fields == map[]
      modifies this
      ensures FirstRepeatedFrom(names, 0).Some? ==> r == Err("Variable " + FirstRepeatedFrom(names, 0).value + " already defined")
      ensures FirstRepeatedFrom(names, 0).None? ==> r == Ok(Void) && fields == Bindings(names, vals)
    {
      r := Ok(Void);
      var i := 0;
      while i < |names|
        invariant 0 <= i <= |names|
        invariant Distinct(names[..i]) && fields == Bindings(names[..i], vals[..i])
        invariant FirstRepeatedFrom(names, 0) == FirstRepeatedFrom(names, i)
        invariant r == Ok(Void)
      {
        BindStep(names, vals, i);
        r := DefineValue(names[i], vals[i]);
        if !r.Ok? {
          return;
        }
        i := i + 1;
      }
      assert names[..i] == names && vals[..i] == vals;
    }

    /** Adds a method table entry that is not there yet; a second definition of a name fails and changes nothing. */
    method DefineMethod(name: string, v: Value) returns (r: Outcome<Value>)
      modifies this
      ensures fields == old(fields)
      ensures name in old(methods) ==> r == Err("Method " + name + " already defined") && methods == old(methods)
      ensures name !in old(methods) ==> r == Ok(Void) && methods == old(methods)[name := v]
    {
      if name in methods {
        r := Err("Method " + name + " already defined");
      } else {
        methods := methods[name := v];
        r := Ok(Void);
      }
    }
  }

  // ------------------------------------------------------------------ arrays

  datatype ArrayOp = LengthOp | AddOp | InsertOp | RemoveAtOp | RemoveOp | ClearOp

  /** What an array operation hands back, and the elements it leaves behind. */
  datatype Effect = Effect(result: Outcome<Value>, elements: seq<Value>)

  /** The arrays a receiver value lets an operation touch. */
  function Footprint(v: Value): set<Array>
  {
    if v.ArrayV? then {v.arr} else {}
  }

  /** The elements behind a receiver value; nothing for a value that is not an array. */
  function Elements(v: Value): seq<Value>
    reads Footprint(v)
  {
    if v.ArrayV? then v.arr.elements else []
  }

  /** The position of the first element that `eq` finds equal to `v`, as `iter().position` finds it. */
  function FirstEqual(xs: seq<Value>, v: Value, eq: (Value, Value) -> bool): (r: Option<nat>)
    ensures r.Some? ==> r.value < |xs| && eq(xs[r.value], v) && forall j :: 0 <= j < r.value ==> !eq(xs[j], v)
    ensures r.None? ==> forall j :: 0 <= j < |xs| ==> !eq(xs[j], v)
    decreases |xs|
  {
    if xs == [] then None
    else if eq(xs[0], v) then Some(0)
    else match FirstEqual(xs[1..], v, eq)
      case None => None
      case Some(i) => Some(i + 1)
  }

  /**
   * An array operation on elements `elements` with argument vector
   * `values`.  Reading an argument that is not there panics; the index
   * operations go through the bounds check, which is why inserting at the
   * length is refused.
   */
  function ArrayStep(op: ArrayOp, elements: seq<Value>, values: seq<Value>, eq: (Value, Value) -> bool): (e: Effect)
    ensures e.result.Ok? ==> e.result.value == if op == LengthOp then Number(|elements|) else Void
    ensures !e.result.Ok? ==> e.elements == elements
    ensures e.result.Fail? ==> e.result.flow.Error?
    ensures op == LengthOp ==> e == Effect(Ok(Number(|elements|)), elements)
    ensures op == AddOp ==>
      (e.result.Ok? && |e.elements| == |elements| + |values|
       && e.elements[..|elements|] == elements && e.elements[|elements|..] == values)
    ensures op == InsertOp && e.result.Ok? ==>
      |values| >= 2 && values[0].Number? &&
      var i := values[0].n;
      0 <= i < |elements| && |e.elements| == |elements| + 1 && e.elements[i] == values[1]
      && e.elements[..i] == elements[..i] && e.elements[i + 1..] == elements[i..]
    ensures op == InsertOp && |values| >= 2 && values[0] == Number(|elements|) ==> e.result == Err(IndexMessage)
    ensures op == InsertOp && |values| >= 2 && values[0].Number? && 0 <= values[0].n < |elements| ==> e.result.Ok?
    ensures op == RemoveAtOp && |values| >= 1 && values[0].Number? && 0 <= values[0].n < |elements| ==> e.result.Ok?
    ensures op == RemoveAtOp && e.result.Ok? ==>
      |values| >= 1 && values[0].Number? &&
      var i := values[0].n;
      0 <= i < |elements| && e.elements == elements[..i] + elements[i + 1..]
    ensures op == RemoveOp && |values| >= 1 ==> e.result.Ok?
    ensures op == RemoveOp && |values| >= 1 && FirstEqual(elements, values[0], eq).None? ==> e.elements == elements
    ensures op == RemoveOp && |values| >= 1 && FirstEqual(elements, values[0], eq).Some? ==>
      var i := FirstEqual(elements, values[0], eq).value;
      e.elements == elements[..i] + elements[i + 1..]
    ensures op == ClearOp ==> e == Effect(Ok(Void), [])
  {
    match op
    case LengthOp => Effect(Ok(Number(|elements|)), elements)
    case AddOp => Effect(Ok(Void), elements + values)
    case InsertOp =>
      if |values| == 0 then Effect(Panic(MissingArgument(0, 0)), elements)
      else if !values[0].Number? then Effect(Err(NumberMessage), elements)
      else if |values| == 1 then Effect(Panic(MissingArgument(1, 1)), elements)
      else if values[0].n < 0 || values[0].n >= |elements| then Effect(Err(IndexMessage), elements)
      else Effect(Ok(Void), elements[..values[0].n] + [values[1]] + elements[values[0].n..])
    case RemoveAtOp =>
      if |values| == 0 then Effect(Panic(MissingArgument(0, 0)), elements)
      else if !values[0].Number? then Effect(Err(NumberMessage), elements)
      else if values[0].n < 0 || values[0].n >= |elements| then Effect(Err(IndexMessage), elements)
      else Effect(Ok(Void), elements[..values[0].n] + elements[values[0].n + 1..])
    case RemoveOp =>
      if |values| == 0 then Effect(Panic(MissingArgument(0, 0)), elements)
      else
        (match FirstEqual(elements, values[0], eq)
         case None => Effect(Ok(Void), elements)
         case Some(i) => Effect(Ok(Void), elements[..i] + elements[i + 1..]))
    case ClearOp => Effect(Ok(Void), [])
  }

  /** An array operation on a receiver value: a receiver that is not an array is an error and changes nothing. */
  function Run(op: ArrayOp, receiver: Value, elements: seq<Value>, values: seq<Value>, eq: (Value, Value) -> bool): (e: Effect)
    ensures !receiver.ArrayV? ==> e == Effect(Err(ArrayMessage), elements)
    ensures receiver.ArrayV? ==> e == ArrayStep(op, elements, values, eq)
  {
    if receiver.ArrayV? then ArrayStep(op, elements, values, eq) else Effect(Err(ArrayMessage), elements)
  }

  /** Removing one element keeps every other element: the multiset loses exactly the removed one. */
  lemma RemoveKeepsOthers(elements: seq<Value>, i: nat)
    requires i < |elements|
    ensures multiset(elements[..i] + elements[i + 1..]) + multiset{elements[i]} == multiset(elements)
  {
    assert elements == elements[..i] + [elements[i]] + elements[i + 1..];
  }

  /** Inserting then removing at the same valid index gives the elements back. */
  lemma InsertThenRemoveAt(elements: seq<Value>, i: nat, v: Value, eq: (Value, Value) -> bool)
    requires i < |elements|
    ensures var inserted := ArrayStep(InsertOp, elements, [Number(i), v], eq);
      inserted.result == Ok(Void)
      && ArrayStep(RemoveAtOp, inserted.elements, [Number(i)], eq) == Effect(Ok(Void), elements)
  {
    var grown := elements[..i] + [v] + elements[i..];
    assert grown[..i] == elements[..i] && grown[i + 1..] == elements[i..];
    assert elements[..i] + elements[i..] == elements;
  }

  /**
   * The wrapper's method table: six native methods, each taking exactly the
   * arguments its array operation reads, all sharing the one receiver cell.
   */
  function ArrayMethods(receiver: Cell): (t: map<string, Value>)
    ensures t.Keys == {"length", "add", "insert", "removeAt", "remove", "clear"}
    ensures forall k :: k in t ==>
      t[k].NativeMethodV? && t[k].native.receiver == receiver && t[k].native.code.ArrayCode?
      && t[k].native.minArity == t[k].native.maxArity
    ensures t["length"].native.code.op == LengthOp && t["length"].native.minArity == 0
    ensures t["add"].native.code.op == AddOp && t["add"].native.minArity == 1
    ensures t["insert"].native.code.op == InsertOp && t["insert"].native.minArity == 2
    ensures t["removeAt"].native.code.op == RemoveAtOp && t["removeAt"].native.minArity == 1
    ensures t["remove"].native.code.op == RemoveOp && t["remove"].native.minArity == 1
    ensures t["clear"].native.code.op == ClearOp && t["clear"].native.minArity == 0
  {
    map[
      "length" := NativeMethodV(NativeMethod(ArrayCode(LengthOp), receiver, 0, 0)),
      "add" := NativeMethodV(NativeMethod(ArrayCode(AddOp), receiver, 1, 1)),
      "insert" := NativeMethodV(NativeMethod(ArrayCode(InsertOp), receiver, 2, 2)),
      "removeAt" := NativeMethodV(NativeMethod(ArrayCode(RemoveAtOp), receiver, 1, 1)),
      "remove" := NativeMethodV(NativeMethod(ArrayCode(RemoveOp), receiver, 1, 1)),
      "clear" := NativeMethodV(NativeMethod(ArrayCode(ClearOp), receiver, 0, 0))
    ]
  }

  /** A growable vector of values, with the wrapper object that exposes its native methods. */
  class Array {
    var elements: seq<Value>
    var wrapper: Object?

    constructor (elements: seq<Value>)
      ensures this.elements == elements && wrapper == null
    {
      this.elements := elements;
      wrapper := null;
    }

    /** Builds the wrapper object, whose method table is `ArrayMethods(receiver)`. */
    method Wrap(receiver: Cell) returns (r: Outcome<Value>)
      modifies this
      ensures r == Ok(Void) && elements == old(elements)
      ensures wrapper != null && fresh(wrapper) && wrapper.fields == map[] && wrapper.methods == ArrayMethods(receiver)
    {
      var table := new Object();
      var t := ArrayMethods(receiver);
      r := table.DefineMethod("length", t["length"]);
      assert table.methods == map["length" := t["length"]];
      r := table.DefineMethod("add", t["add"]);
      assert table.methods == map["length" := t["length"], "add" := t["add"]];
      r := table.DefineMethod("insert", t["insert"]);
      assert table.methods.Keys == {"length", "add", "insert"};
      r := table.DefineMethod("removeAt", t["removeAt"]);
      assert table.methods.Keys == {"length", "add", "insert", "removeAt"};
      r := table.DefineMethod("remove", t["remove"]);
      assert table.methods.Keys == {"length", "add", "insert", "removeAt", "remove"};
      r := table.DefineMethod("clear", t["clear"]);
      assert table.methods.Keys == t.Keys;
      wrapper := table;
      r := Ok(Void);
    }

    function CheckIndex(index: int): (r: Outcome<Value>)
      reads this
      ensures r.Ok? <==> 0 <= index < |elements|
      ensures r.Ok? ==> r.value == Void
      ensures !r.Ok? ==> r == Err(IndexMessage)
    {
      if index < 0 || index >= |elements| then Err(IndexMessage) else Ok(Void)
    }

    function GetValue(index: int): (r: Outcome<Value>)
      reads this
      ensures r.Ok? <==> 0 <= index < |elements|
      ensures r.Ok? ==> r.value == elements[index]
      ensures !r.Ok? ==> r == Err(IndexMessage)
    {
      if CheckIndex(index).Ok? then Ok(elements[index]) else Err(IndexMessage)
    }

    method SetValue(index: int, v: Value) returns (r: Outcome<Value>)
      modifies this
      ensures wrapper == old(wrapper)
      ensures 0 <= index < old(|elements|) ==>
        r == Ok(Void) && |elements| == old(|elements|) && elements[index] == v
        && forall k :: 0 <= k < |elements| && k != index ==> elements[k] == old(elements[k])
      ensures !(0 <= index < old(|elements|)) ==> r == Err(IndexMessage) && elements == old(elements)
    {
      r := CheckIndex(index);
      if r.Ok? {
        elements := elements[index := v];
      }
    }

    /** `length(this, values)`: the element count of the receiver array. */
    static function Length(receiver: Value, values: seq<Value>): (r: Outcome<Value>)
      reads Footprint(receiver)
      ensures receiver.ArrayV? ==> r == Ok(Number(|receiver.arr.elements|))
      ensures !receiver.ArrayV? ==> r == Err(ArrayMessage)
    {
      if receiver.ArrayV? then Ok(Number(|receiver.arr.elements|)) else Err(ArrayMessage)
    }

    /** `add(this, values)`: appends every argument, in order. */
    static method Add(receiver: Value, values: seq<Value>, ghost eq: (Value, Value) -> bool) returns (r: Outcome<Value>)
      modifies Footprint(receiver)
      ensures Effect(r, Elements(receiver)) == Run(AddOp, receiver, old(Elements(receiver)), values, eq)
    {
      if !receiver.ArrayV? {
        return Err(ArrayMessage);
      }
      var a := receiver.arr;
      var i := 0;
      while i < |values|
        invariant 0 <= i <= |values|
        invariant a.elements == old(a.elements) + values[..i]
      {
        a.elements := a.elements + [values[i]];
        i := i + 1;
        assert values[..i] == values[..i - 1] + [values[i - 1]];
      }
      assert values[..i] == values;
      r := Ok(Void);
    }

    /** `insert(this, values)`: places `values[1]` at index `values[0]`, shifting later elements right. */
    static method Insert(receiver: Value, values: seq<Value>, ghost eq: (Value, Value) -> bool) returns (r: Outcome<Value>)
      modifies Footprint(receiver)
      ensures Effect(r, Elements(receiver)) == Run(InsertOp, receiver, old(Elements(receiver)), values, eq)
    {
      if !receiver.ArrayV? {
        return Err(ArrayMessage);
      }
      var a := receiver.arr;
      if |values| == 0 {
        return Panic(MissingArgument(0, 0));
      }
      if !values[0].Number? {
        return Err(NumberMessage);
      }
      var index := values[0].n;
      if |values| == 1 {
        return Panic(MissingArgument(1, 1));
      }
      var v := values[1];
      r := a.CheckIndex(index);
      if r.Ok? {
        a.elements := a.elements[..index] + [v] + a.elements[index..];
      }
    }

    /** `removeAt(this, values)`: deletes the element at index `values[0]`. */
    static method RemoveAt(receiver: Value, values: seq<Value>, ghost eq: (Value, Value) -> bool) returns (r: Outcome<Value>)
      modifies Footprint(receiver)
      ensures Effect(r, Elements(receiver)) == Run(RemoveAtOp, receiver, old(Elements(receiver)), values, eq)
    {
      if !receiver.ArrayV? {
        return Err(ArrayMessage);
      }
      var a := receiver.arr;
      if |values| == 0 {
        return Panic(MissingArgument(0, 0));
      }
      if !values[0].Number? {
        return Err(NumberMessage);
      }
      var index := values[0].n;
      r := a.CheckIndex(index);
      if r.Ok? {
        a.elements := a.elements[..index] + a.elements[index + 1..];
      }
    }

    /** `remove(this, values)`: deletes the first element equal to `values[0]`, if there is one. */
    static method Remove(receiver: Value, values: seq<Value>, eq: (Value, Value) -> bool) returns (r: Outcome<Value>)
      modifies Footprint(receiver)
      ensures Effect(r, Elements(receiver)) == Run(RemoveOp, receiver, old(Elements(receiver)), values, eq)
    {
      if !receiver.ArrayV? {
        return Err(ArrayMessage);
      }
      var a := receiver.arr;
      if |values| == 0 {
        return Panic(MissingArgument(0, 0));
      }
      var v := values[0];
      var i := 0;
      while i < |a.elements| && !eq(a.elements[i], v)
        invariant 0 <= i <= |a.elements|
        invariant forall j :: 0 <= j < i ==> !eq(a.elements[j], v)
      {
        i := i + 1;
      }
      if i < |a.elements| {
        assert FirstEqual(a.elements, v, eq) == Some(i);
        a.elements := a.elements[..i] + a.elements[i + 1..];
      } else {
        assert FirstEqual(a.elements, v, eq) == None;
      }
      r := Ok(Void);
    }

    /** `clear(this, values)`: leaves no element. */
    static method Clear(receiver: Value, values: seq<Value>, ghost eq: (Value, Value) -> bool) returns (r: Outcome<Value>)
      modifies Footprint(receiver)
      ensures Effect(r, Elements(receiver)) == Run(ClearOp, receiver, old(Elements(receiver)), values, eq)
    {
      if !receiver.ArrayV? {
        return Err(ArrayMessage);
      }
      receiver.arr.elements := [];
      r := Ok(Void);
    }

    /** Runs the array operation a native method names. */
    static method Dispatch(op: ArrayOp, receiver: Value, values: seq<Value>, eq: (Value, Value) -> bool) returns (r: Outcome<Value>)
      modifies Footprint(receiver)
      ensures Effect(r, Elements(receiver)) == Run(op, receiver, old(Elements(receiver)), values, eq)
    {
      match op
      case LengthOp => r := Length(receiver, values);
      case AddOp => r := Add(receiver, values, eq);
      case InsertOp => r := Insert(receiver, values, eq);
      case RemoveAtOp => r := RemoveAt(receiver, values, eq);
      case RemoveOp => r := Remove(receiver, values, eq);
      case ClearOp => r := Clear(receiver, values, eq);
    }
  }

  // ------------------------------------------------------------- environment

  /** The frame nearest the top of `frames` whose table (methods or fields) holds `name`. */
  function Topmost(frames: seq<Object>, name: string, inMethods: bool): (r: Option<nat>)
    reads frames
    ensures r.Some? ==>
      r.value < |frames| && name in Table(frames[r.value], inMethods)
      && forall j :: r.value < j < |frames| ==> name !in Table(frames[j], inMethods)
    ensures r.None? ==> forall j :: 0 <= j < |frames| ==> name !in Table(frames[j], inMethods)
    decreases |frames|
  {
    if frames == [] then None
    else if name in Table(frames[|frames| - 1], inMethods) then Some(|frames| - 1)
    else Topmost(frames[..|frames| - 1], name, inMethods)
  }

  function Table(o: Object, inMethods: bool): map<string, Value>
    reads o
  {
    if inMethods then o.methods else o.fields
  }

  /** A stack of frames, the bottom one being the root that is never popped. */
  class Env {
    var stack: seq<Object>

    ghost predicate Valid()
      reads this
    {
      |stack| >= 1
    }

    /** Exactly one frame, fresh and empty. */
    constructor ()
      ensures Valid() && |stack| == 1 && fresh(stack[0])
      ensures stack[0].methods == map[] && stack[0].fields == map[]
    {
      var root := new Object();
      stack := [root];
    }

    /** The top frame. */
    function Current(): (o: Object)
      requires Valid()
      reads this
      ensures o in stack && o == stack[|stack| - 1]
    {
      stack[|stack| - 1]
    }

    method Push(o: Object)
      modifies this
      ensures stack == old(stack) + [o] && Valid() && Current() == o
    {
      stack := stack + [o];
    }

    method PushDefault()
      modifies this
      ensures Valid() && |stack| == old(|stack|) + 1 && stack[..old(|stack|)] == old(stack)
      ensures fresh(Current()) && Current().methods == map[] && Current().fields == map[]
    {
      var o := new Object();
      stack := stack + [o];
    }

    /** Removes the top frame, unless it is the root; after a push, restores the previous top. */
    method Pop() returns (r: Outcome<Value>)
      requires Valid()
      modifies this
      ensures Valid()
      ensures old(|stack|) == 1 ==> r == Err("Cannot pop the default environment") && stack == old(stack)
      ensures old(|stack|) > 1 ==> r == Ok(Void) && stack == old(stack[..|stack| - 1])
    {
      if |stack| == 1 {
        r := Err("Cannot pop the default environment");
      } else {
        stack := stack[..|stack| - 1];
        r := Ok(Void);
      }
    }

    /** Defines a variable in the top frame only. */
    method DefineValue(name: string, v: Value) returns (r: Outcome<Value>)
      requires Valid()
      modifies Current()
      ensures Current().methods == old(Current().methods)
      ensures name in old(Current().fields) ==>
        r == Err("Variable " + name + " already defined") && Current().fields == old(Current().fields)
      ensures name !in old(Current().fields) ==> r == Ok(Void) && Current().fields == old(Current().fields)[name := v]
    {
      r := Current().DefineValue(name, v);
    }

    /** Defines a user method in the top frame only. */
    method DefineMethod(name: string, m: Method) returns (r: Outcome<Value>)
      requires Valid()
      modifies Current()
      ensures Current().fields == old(Current().fields)
      ensures name in old(Current().methods) ==>
        r == Err("Method " + name + " already defined") && Current().methods == old(Current().methods)
      ensures name !in old(Current().methods) ==> r == Ok(Void) && Current().methods == old(Current().methods)[name := MethodV(m)]
    {
      r := Current().DefineMethod(name, MethodV(m));
    }

    /** Defines a host function in the top frame only, in its method table. */
    method DefineNativeFunction(name: string, f: NativeFunction) returns (r: Outcome<Value>)
      requires Valid()
      modifies Current()
      ensures Current().fields == old(Current().fields)
      ensures name in old(Current().methods) ==>
        r == Err("Method " + name + " already defined") && Current().methods == old(Current().methods)
      ensures name !in old(Current().methods) ==>
        r == Ok(Void) && Current().methods == old(Current().methods)[name := NativeFunctionV(f)]
    {
      r := Current().DefineMethod(name, NativeFunctionV(f));
    }

    /** The variable from the topmost frame that has it. */
    method GetValue(name: string) returns (r: Outcome<Value>)
      ensures Topmost(stack, name, false).Some? ==> r == Ok(stack[Topmost(stack, name, false).value].fields[name])
      ensures Topmost(stack, name, false).None? ==> r == Err("Variable " + name + " not found")
    {
      var i := |stack|;
      while i > 0
        invariant 0 <= i <= |stack|
        invariant forall j :: i <= j < |stack| ==> name !in stack[j].fields
      {
        i := i - 1;
        var found := stack[i].GetValue(name);
        if found.Ok? {
          return found;
        }
      }
      r := Err("Variable " + name + " not found");
    }

    /** The method table entry from the topmost frame that has it. */
    method GetMethod(name: string) returns (r: Outcome<Value>)
      ensures Topmost(stack, name, true).Some? ==> r == Ok(stack[Topmost(stack, name, true).value].methods[name])
      ensures Topmost(stack, name, true).None? ==> r == Err("Method " + name + " not found")
    {
      var i := |stack|;
      while i > 0
        invariant 0 <= i <= |stack|
        invariant forall j :: i <= j < |stack| ==> name !in stack[j].methods
      {
        i := i - 1;
        var found := stack[i].GetMethod(name);
        if found.Ok? {
          return found;
        }
      }
      r := Err("Method " + name + " not found");
    }

    /**
     * Overwrites the variable in the topmost frame that has it; frames that
     * are other objects keep their tables.  It never creates a variable.
     */
    method SetValue(name: string, v: Value) returns (r: Outcome<Value>)
      modifies set o | o in stack
      ensures forall j :: 0 <= j < |stack| ==> stack[j].methods == old(stack[j].methods)
      ensures old(Topmost(stack, name, false)).None? ==>
        r == Err("Variable " + name + " not found")
        && forall j :: 0 <= j < |stack| ==> stack[j].fields == old(stack[j].fields)
      ensures old(Topmost(stack, name, false)).Some? ==>
        var h := old(Topmost(stack, name, false)).value;
        r == Ok(Void) && stack[h].fields == old(stack[h].fields)[name := v]
        && forall j :: 0 <= j < |stack| && stack[j] != stack[h] ==> stack[j].fields == old(stack[j].fields)
    {
      var i := |stack|;
      while i > 0
        invariant 0 <= i <= |stack|
        invariant forall j :: i <= j < |stack| ==> name !in stack[j].fields
      {
        i := i - 1;
        if name in stack[i].fields {
          r := stack[i].SetValue(name, v);
          return;
        }
      }
      r := Err("Variable " + name + " not found");
    }
  }
}
