/**
 * The early revision of the juice runtime: `juice/value.rs` (values, operators,
 * objects, arrays, the user-method call) and `juice/interpreter.rs` (the
 * parent-linked environment and the expression evaluator).
 *
 * Numbers are unbounded integers.  Rust panics (`panic!`, `todo!()`, a stack
 * overflow in the derived equality) are the `Panic` outcome, kept apart from
 * the `Flow` values that the interpreter passes around on purpose.
 */
module Interp {
  import opened Wrappers
  import A = Ast
  import opened Binding

  // ------------------------------------------------------------------ values

  datatype Value =
    | Number(n: int)
    | String(s: string)
    | Bool(b: bool)
    | ObjectV(obj: Object)
    | MethodV(m: Method)
    | NativeMethodV(native: NativeMethod)
    | ArrayV(arr: Array)
    | Null
    | Void

  datatype Flow = Return(returned: Value) | Break | Continue | Error(message: string)

  datatype Outcome<T> = Ok(value: T) | Fail(flow: Flow) | Panic(reason: string)

  function Err<T>(message: string): Outcome<T> { Fail(Error(message)) }

  /** A user method together with the object it was taken from. */
  datatype Method = Method(declaration: A.MethodDeclaration, receiver: Object)

  /**
   * A host method: `code` names the Rust function pointer, whose behaviour
   * is the interpreter's `host` parameter.
   */
  datatype NativeMethod = NativeMethod(code: string, arity: nat)

  const TodoMessage := "not yet implemented"
  const OverflowMessage := "stack overflow"
  const IndexMessage := "Index out of bounds"

  // ------------------------------------------------------- kinds and casts

  datatype Kind = NumberKind | StringKind | BoolKind | ObjectKind | MethodKind | NativeMethodKind | ArrayKind | NullKind | VoidKind

  function KindOf(v: Value): (k: Kind)
    ensures (k == NumberKind <==> v.Number?) && (k == StringKind <==> v.String?) && (k == BoolKind <==> v.Bool?)
  {
    match v
    case Number(_) => NumberKind
    case String(_) => StringKind
    case Bool(_) => BoolKind
    case ObjectV(_) => ObjectKind
    case MethodV(_) => MethodKind
    case NativeMethodV(_) => NativeMethodKind
    case ArrayV(_) => ArrayKind
    case Null => NullKind
    case Void => VoidKind
  }

  function AsNumber(v: Value): (r: Outcome<int>)
    ensures r.Ok? <==> KindOf(v) == NumberKind
    ensures r.Ok? ==> v == Number(r.value)
    ensures !r.Ok? ==> r == Err("Invalid operands for number operation")
  {
    if v.Number? then Ok(v.n) else Err("Invalid operands for number operation")
  }

  function AsString(v: Value): (r: Outcome<string>)
    ensures r.Ok? <==> KindOf(v) == StringKind
    ensures r.Ok? ==> v == String(r.value)
    ensures !r.Ok? ==> r == Err("Invalid operands for string operation")
  {
    if v.String? then Ok(v.s) else Err("Invalid operands for string operation")
  }

  function AsBool(v: Value): (r: Outcome<bool>)
    ensures r.Ok? <==> KindOf(v) == BoolKind
    ensures r.Ok? ==> v == Bool(r.value)
    ensures !r.Ok? ==> r == Err("Invalid operands for boolean operation")
  {
    if v.Bool? then Ok(v.b) else Err("Invalid operands for boolean operation")
  }

  function AsObject(v: Value): (r: Outcome<Object>)
    ensures r.Ok? <==> KindOf(v) == ObjectKind
    ensures r.Ok? ==> v == ObjectV(r.value)
    ensures !r.Ok? ==> r == Err("Invalid operands for object operation")
  {
    if v.ObjectV? then Ok(v.obj) else Err("Invalid operands for object operation")
  }

  function AsArray(v: Value): (r: Outcome<Array>)
    ensures r.Ok? <==> KindOf(v) == ArrayKind
    ensures r.Ok? ==> v == ArrayV(r.value)
    ensures !r.Ok? ==> r == Err("Invalid operands for array operation")
  {
    if v.ArrayV? then Ok(v.arr) else Err("Invalid operands for array operation")
  }

  function AsMethod(v: Value): (r: Outcome<Method>)
    ensures r.Ok? <==> KindOf(v) == MethodKind
    ensures r.Ok? ==> v == MethodV(r.value)
    ensures !r.Ok? ==> r == Err("Invalid operands for method operation")
  {
    if v.MethodV? then Ok(v.m) else Err("Invalid operands for method operation")
  }

  predicate IsMethod(v: Value) { v.MethodV? }

  predicate IsNativeMethod(v: Value) { v.NativeMethodV? }

  /** Truthiness is defined for booleans only; it is the same check as `AsBool`. */
  function IsTruthy(v: Value): (r: Outcome<bool>)
    ensures r == AsBool(v)
  {
    if v.Bool? then Ok(v.b) else Err("Invalid operands for boolean operation")
  }

  // -------------------------------------------------------------- operators

  /** `and`: the right operand is looked at only when the left one is `true`. */
  function And(l: Value, r: Value): (res: Outcome<Value>)
    ensures res.Ok? <==> l.Bool? && (!l.b || r.Bool?)
    ensures res.Ok? ==> res.value == Bool(l.b && r.b)
    ensures !res.Ok? ==> res == Err("Invalid operands for boolean operation")
  {
    match IsTruthy(l)
    case Ok(x) =>
      if !x then Ok(Bool(false))
      else (match IsTruthy(r) case Ok(y) => Ok(Bool(y)) case Fail(f) => Fail(f) case Panic(p) => Panic(p))
    case Fail(f) => Fail(f)
    case Panic(p) => Panic(p)
  }

  /** `or`: the right operand is looked at only when the left one is `false`. */
  function Or(l: Value, r: Value): (res: Outcome<Value>)
    ensures res.Ok? <==> l.Bool? && (l.b || r.Bool?)
    ensures res.Ok? ==> res.value == Bool(l.b || r.b)
    ensures !res.Ok? ==> res == Err("Invalid operands for boolean operation")
  {
    match IsTruthy(l)
    case Ok(x) =>
      if x then Ok(Bool(true))
      else (match IsTruthy(r) case Ok(y) => Ok(Bool(y)) case Fail(f) => Fail(f) case Panic(p) => Panic(p))
    case Fail(f) => Fail(f)
    case Panic(p) => Panic(p)
  }

  /** `not` returns the truth value it checked, without negating it. */
  function Not(v: Value): (res: Outcome<Value>)
    ensures res.Ok? <==> v.Bool?
    ensures res.Ok? ==> res.value == v
    ensures !res.Ok? ==> res == Err("Invalid operands for boolean operation")
  {
    match IsTruthy(v)
    case Ok(x) => Ok(Bool(x))
    case Fail(f) => Fail(f)
    case Panic(p) => Panic(p)
  }

  function Neg(v: Value): (res: Outcome<Value>)
    ensures res.Ok? <==> v.Number?
    ensures res.Ok? ==> res.value.Number? && res.value.n + v.n == 0
    ensures !res.Ok? ==> res == Err("Invalid operands for negation operation")
  {
    if v.Number? then Ok(Number(-v.n)) else Err("Invalid operands for negation operation")
  }

  function Add(l: Value, r: Value): (res: Outcome<Value>)
    ensures res.Ok? <==> (l.Number? && r.Number?) || (l.String? && r.String?)
    ensures l.Number? && r.Number? ==> res == Ok(Number(l.n + r.n))
    ensures l.String? && r.String? ==>
      (res.Ok? && res.value.String? && |res.value.s| == |l.s| + |r.s|
       && res.value.s[..|l.s|] == l.s && res.value.s[|l.s|..] == r.s)
    ensures !res.Ok? ==> res == Err("Invalid operands for add operation")
  {
    if l.Number? && r.Number? then Ok(Number(l.n + r.n))
    else if l.String? && r.String? then Ok(String(l.s + r.s))
    else Err("Invalid operands for add operation")
  }

  function Sub(l: Value, r: Value): (res: Outcome<Value>)
    ensures res.Ok? <==> l.Number? && r.Number?
    ensures res.Ok? ==> res.value.Number? && res.value.n + r.n == l.n
    ensures !res.Ok? ==> res == Err("Invalid operands for subtraction operation")
  {
    if l.Number? && r.Number? then Ok(Number(l.n - r.n)) else Err("Invalid operands for subtraction operation")
  }

  /** `s` repeated `count` times; a negative count gives the empty string, as a cast to an unsigned size does. */
  function Repeat(s: string, count: int): (r: string)
    decreases count
  {
    if count <= 0 then [] else s + Repeat(s, count - 1)
  }

  /** Repeating `a` times and then `b` times is repeating `a + b` times. */
  lemma {:induction false} RepeatAdd(s: string, a: nat, b: nat)
    ensures Repeat(s, a) + Repeat(s, b) == Repeat(s, a + b)
    decreases a
  {
    if a > 0 {
      var x, y := Repeat(s, a - 1), Repeat(s, b);
      RepeatAdd(s, a - 1, b);
      assert Repeat(s, a) == s + x;
      assert Repeat(s, a + b) == s + Repeat(s, a - 1 + b);
      Associative(s, x, y);
    }
  }

  lemma Associative<T>(a: seq<T>, b: seq<T>, c: seq<T>)
    ensures (a + b) + c == a + (b + c)
  {
  }

  lemma {:induction false} RepeatLength(s: string, count: int)
    ensures |Repeat(s, count)| == if count <= 0 then 0 else |s| * count
    decreases count
  {
    if count > 0 {
      RepeatLength(s, count - 1);
    }
  }

  function Mul(l: Value, r: Value): (res: Outcome<Value>)
    ensures res.Ok? <==> r.Number? && (l.Number? || l.String?)
    ensures l.Number? && r.Number? ==> res == Ok(Number(l.n * r.n))
    ensures l.String? && r.Number? ==> res == Ok(String(Repeat(l.s, r.n)))
    ensures !res.Ok? ==> res == Err("Invalid operands for multiplication operation")
  {
    if l.Number? && r.Number? then Ok(Number(l.n * r.n))
    else if l.String? && r.Number? then Ok(String(Repeat(l.s, r.n)))
    else Err("Invalid operands for multiplication operation")
  }

  /** Integer quotient rounded toward zero, standing in for the source's real division. */
  function Quotient(a: int, b: int): int
    requires b != 0
  {
    if (a >= 0) == (b > 0) then (if a >= 0 then a / b else (-a) / (-b))
    else -((if a >= 0 then a else -a) / (if b > 0 then b else -b))
  }

  /** Remainder with the sign of the dividend, as `%` on the source's numbers. */
  function Remainder(a: int, b: int): (r: int)
    requires b != 0
    ensures Quotient(a, b) * b + r == a
  {
    a - Quotient(a, b) * b
  }

  function Div(l: Value, r: Value): (res: Outcome<Value>)
    ensures res.Ok? <==> l.Number? && r.Number? && r.n != 0
    ensures l.Number? && r.Number? && r.n == 0 ==> res == Err("Division by zero")
    ensures res.Ok? ==> res.value == Number(Quotient(l.n, r.n))
    ensures !(l.Number? && r.Number?) ==> res == Err("Invalid operands for division operation")
  {
    if l.Number? && r.Number? then
      if r.n == 0 then Err("Division by zero") else Ok(Number(Quotient(l.n, r.n)))
    else Err("Invalid operands for division operation")
  }

  function Rem(l: Value, r: Value): (res: Outcome<Value>)
    ensures res.Ok? <==> l.Number? && r.Number?
    ensures res.Ok? && r.n != 0 ==> res.value == Number(Remainder(l.n, r.n))
    ensures !res.Ok? ==> res == Err("Invalid operands for remainder operation")
  {
    if l.Number? && r.Number? then Ok(Number(if r.n == 0 then l.n else Remainder(l.n, r.n)))
    else Err("Invalid operands for remainder operation")
  }

  /** Lexicographic order on strings, character by character. */
  predicate StringLess(a: string, b: string)
    decreases |a|
  {
    if |a| == 0 then |b| > 0
    else if |b| == 0 then false
    else if a[0] != b[0] then a[0] < b[0]
    else StringLess(a[1..], b[1..])
  }

  lemma {:induction false} StringOrderTotal(a: string, b: string)
    ensures a == b || StringLess(a, b) || StringLess(b, a)
    ensures !(StringLess(a, b) && StringLess(b, a))
    ensures !StringLess(a, a)
    decreases |a|
  {
    if |a| > 0 && |b| > 0 && a[0] == b[0] {
      StringOrderTotal(a[1..], b[1..]);
      if a[1..] == b[1..] {
        assert a == [a[0]] + a[1..] && b == [b[0]] + b[1..];
      }
    } else if |a| > 0 && |b| == 0 {
    } else if |a| > 0 && |b| > 0 {
    }
    if |a| > 0 {
      StringLessIrreflexive(a);
    }
  }

  lemma {:induction false} StringLessIrreflexive(a: string)
    ensures !StringLess(a, a)
    decreases |a|
  {
    if |a| > 0 {
      StringLessIrreflexive(a[1..]);
    }
  }

  function Compare(l: Value, r: Value, numbers: (int, int) -> bool, strings: (string, string) -> bool, message: string): Outcome<Value>
  {
    if l.Number? && r.Number? then Ok(Bool(numbers(l.n, r.n)))
    else if l.String? && r.String? then Ok(Bool(strings(l.s, r.s)))
    else Err(message)
  }

  function Lt(l: Value, r: Value): (res: Outcome<Value>)
    ensures res.Ok? <==> (l.Number? && r.Number?) || (l.String? && r.String?)
    ensures l.Number? && r.Number? ==> res == Ok(Bool(l.n < r.n))
    ensures l.String? && r.String? ==> res == Ok(Bool(StringLess(l.s, r.s)))
    ensures !res.Ok? ==> res == Err("Invalid operands for less than operation")
  {
    Compare(l, r, (x: int, y: int) => x < y, (x: string, y: string) => StringLess(x, y), "Invalid operands for less than operation")
  }

  function Gt(l: Value, r: Value): (res: Outcome<Value>)
    ensures res.Ok? <==> (l.Number? && r.Number?) || (l.String? && r.String?)
    ensures l.Number? && r.Number? ==> res == Ok(Bool(l.n > r.n))
    ensures l.String? && r.String? ==> res == Ok(Bool(StringLess(r.s, l.s)))
    ensures !res.Ok? ==> res == Err("Invalid operands for greater than operation")
  {
    Compare(l, r, (x: int, y: int) => x > y, (x: string, y: string) => StringLess(y, x), "Invalid operands for greater than operation")
  }

  function Le(l: Value, r: Value): (res: Outcome<Value>)
    ensures res.Ok? <==> (l.Number? && r.Number?) || (l.String? && r.String?)
    ensures l.Number? && r.Number? ==> res == Ok(Bool(l.n <= r.n))
    ensures l.String? && r.String? ==> res == Ok(Bool(!StringLess(r.s, l.s)))
    ensures !res.Ok? ==> res == Err("Invalid operands for less than or equal operation")
  {
    Compare(l, r, (x: int, y: int) => x <= y, (x: string, y: string) => !StringLess(y, x),
      "Invalid operands for less than or equal operation")
  }

  function Ge(l: Value, r: Value): (res: Outcome<Value>)
    ensures res.Ok? <==> (l.Number? && r.Number?) || (l.String? && r.String?)
    ensures l.Number? && r.Number? ==> res == Ok(Bool(l.n >= r.n))
    ensures l.String? && r.String? ==> res == Ok(Bool(!StringLess(l.s, r.s)))
    ensures !res.Ok? ==> res == Err("Invalid operands for greater than or equal operation")
  {
    Compare(l, r, (x: int, y: int) => x >= y, (x: string, y: string) => !StringLess(x, y),
      "Invalid operands for greater than or equal operation")
  }

  // ------------------------------------------------------ structural equality

  /**
   * The derived `PartialEq` of value.rs: equal kinds and equal contents, where
   * objects and arrays are compared by the contents of their shared tables.
   * Each level of object or array nesting uses one unit of `depth`, the native
   * stack; `None` means the comparison overflowed it (a cyclic structure
   * always does).  The source compares hash-map entries in an unspecified
   * order; here a definite difference decides before an overflow.
   */
  function Equals(a: Value, b: Value, depth: nat): Option<bool>
    reads *
    decreases depth, 3, 0
  {
    match (a, b)
    case (Number(x), Number(y)) => Some(x == y)
    case (String(x), String(y)) => Some(x == y)
    case (Bool(x), Bool(y)) => Some(x == y)
    case (ObjectV(o), ObjectV(p)) => ObjectsEqual(o, p, depth)
    case (MethodV(m), MethodV(n)) => MethodsEqual(m, n, depth)
    case (NativeMethodV(m), NativeMethodV(n)) => Some(m == n)
    case (ArrayV(x), ArrayV(y)) => if depth == 0 then None else ElementsEqual(x.elements, y.elements, depth - 1)
    case (Null, Null) => Some(true)
    case (Void, Void) => Some(true)
    case _ => Some(false)
  }

  function ObjectsEqual(o: Object, p: Object, depth: nat): Option<bool>
    reads *
    decreases depth, 1, 0
  {
    if depth == 0 then None
    else
      var same := MethodTablesEqual(o.methods, p.methods, depth - 1);
      if same == Some(true) then FieldTablesEqual(o.fields, p.fields, depth - 1) else same
  }

  function MethodsEqual(m: Method, n: Method, depth: nat): Option<bool>
    reads *
    decreases depth, 2, 0
  {
    if m.declaration != n.declaration then Some(false) else ObjectsEqual(m.receiver, n.receiver, depth)
  }

  function MethodTablesEqual(x: map<string, Method>, y: map<string, Method>, depth: nat): Option<bool>
    reads *
    decreases depth, 4, 0
  {
    if x.Keys != y.Keys then Some(false)
    else if exists k :: k in x && MethodsEqual(x[k], y[k], depth) == Some(false) then Some(false)
    else if forall k :: k in x ==> MethodsEqual(x[k], y[k], depth) == Some(true) then Some(true)
    else None
  }

  function FieldTablesEqual(x: map<string, Value>, y: map<string, Value>, depth: nat): Option<bool>
    reads *
    decreases depth, 4, 0
  {
    if x.Keys != y.Keys then Some(false)
    else if exists k :: k in x && Equals(x[k], y[k], depth) == Some(false) then Some(false)
    else if forall k :: k in x ==> Equals(x[k], y[k], depth) == Some(true) then Some(true)
    else None
  }

  function ElementsEqual(xs: seq<Value>, ys: seq<Value>, depth: nat): Option<bool>
    reads *
    decreases depth, 4, |xs|
  {
    if |xs| != |ys| then Some(false)
    else if xs == [] then Some(true)
    else
      var same := Equals(xs[0], ys[0], depth);
      if same == Some(true) then ElementsEqual(xs[1..], ys[1..], depth) else same
  }

  lemma {:induction false} EqualsSymmetric(a: Value, b: Value, depth: nat)
    ensures Equals(a, b, depth) == Equals(b, a, depth)
    decreases depth, 3, 0
  {
    match (a, b)
    case (ObjectV(o), ObjectV(p)) => ObjectsEqualSymmetric(o, p, depth);
    case (MethodV(m), MethodV(n)) => MethodsEqualSymmetric(m, n, depth);
    case (ArrayV(x), ArrayV(y)) =>
      if depth > 0 {
        ElementsEqualSymmetric(x.elements, y.elements, depth - 1);
      }
    case _ =>
  }

  lemma {:induction false} ObjectsEqualSymmetric(o: Object, p: Object, depth: nat)
    ensures ObjectsEqual(o, p, depth) == ObjectsEqual(p, o, depth)
    decreases depth, 1, 0
  {
    if depth > 0 {
      MethodTablesEqualSymmetric(o.methods, p.methods, depth - 1);
      FieldTablesEqualSymmetric(o.fields, p.fields, depth - 1);
    }
  }

  lemma {:induction false} MethodsEqualSymmetric(m: Method, n: Method, depth: nat)
    ensures MethodsEqual(m, n, depth) == MethodsEqual(n, m, depth)
    decreases depth, 2, 0
  {
    ObjectsEqualSymmetric(m.receiver, n.receiver, depth);
  }

  lemma {:induction false} MethodTablesEqualSymmetric(x: map<string, Method>, y: map<string, Method>, depth: nat)
    ensures MethodTablesEqual(x, y, depth) == MethodTablesEqual(y, x, depth)
    decreases depth, 4, 0
  {
    if x.Keys == y.Keys {
      forall k | k in x
        ensures MethodsEqual(x[k], y[k], depth) == MethodsEqual(y[k], x[k], depth)
      {
        MethodsEqualSymmetric(x[k], y[k], depth);
      }
    }
  }

  lemma {:induction false} FieldTablesEqualSymmetric(x: map<string, Value>, y: map<string, Value>, depth: nat)
    ensures FieldTablesEqual(x, y, depth) == FieldTablesEqual(y, x, depth)
    decreases depth, 4, 0
  {
    if x.Keys == y.Keys {
      forall k | k in x
        ensures Equals(x[k], y[k], depth) == Equals(y[k], x[k], depth)
      {
        EqualsSymmetric(x[k], y[k], depth);
      }
    }
  }

  lemma {:induction false} ElementsEqualSymmetric(xs: seq<Value>, ys: seq<Value>, depth: nat)
    ensures ElementsEqual(xs, ys, depth) == ElementsEqual(ys, xs, depth)
    decreases depth, 4, |xs|
  {
    if |xs| == |ys| && xs != [] {
      EqualsSymmetric(xs[0], ys[0], depth);
      ElementsEqualSymmetric(xs[1..], ys[1..], depth);
    }
  }

  /** A value is never found different from itself; at worst the comparison overflows. */
  lemma {:induction false} EqualsReflexive(a: Value, depth: nat)
    ensures Equals(a, a, depth) != Some(false)
    decreases depth, 3, 0
  {
    match a
    case ObjectV(o) => ObjectsEqualReflexive(o, depth);
    case MethodV(m) => ObjectsEqualReflexive(m.receiver, depth);
    case ArrayV(x) =>
      if depth > 0 {
        ElementsEqualReflexive(x.elements, depth - 1);
      }
    case _ =>
  }

  lemma {:induction false} ObjectsEqualReflexive(o: Object, depth: nat)
    ensures ObjectsEqual(o, o, depth) != Some(false)
    decreases depth, 1, 0
  {
    if depth > 0 {
      forall k | k in o.methods
        ensures MethodsEqual(o.methods[k], o.methods[k], depth - 1) != Some(false)
      {
        ObjectsEqualReflexive(o.methods[k].receiver, depth - 1);
      }
      forall k | k in o.fields
        ensures Equals(o.fields[k], o.fields[k], depth - 1) != Some(false)
      {
        EqualsReflexive(o.fields[k], depth - 1);
      }
    }
  }

  lemma {:induction false} ElementsEqualReflexive(xs: seq<Value>, depth: nat)
    ensures ElementsEqual(xs, xs, depth) != Some(false)
    decreases depth, 4, |xs|
  {
    if xs != [] {
      EqualsReflexive(xs[0], depth);
      ElementsEqualReflexive(xs[1..], depth);
    }
  }

  /** `==` never yields a Flow; an overflowing comparison aborts the program. */
  function Eq(l: Value, r: Value, depth: nat): (res: Outcome<Value>)
    reads *
    ensures !res.Fail?
    ensures res.Ok? <==> Equals(l, r, depth).Some?
    ensures res.Ok? ==> res.value == Bool(Equals(l, r, depth).value)
  {
    match Equals(l, r, depth)
    case Some(x) => Ok(Bool(x))
    case None => Panic(OverflowMessage)
  }

  function Ne(l: Value, r: Value, depth: nat): (res: Outcome<Value>)
    reads *
  {
    match Equals(l, r, depth)
    case Some(x) => Ok(Bool(!x))
    case None => Panic(OverflowMessage)
  }

  /** `!=` is the negation of `==`, and neither ever produces a Flow. */
  lemma NeNegatesEq(l: Value, r: Value, depth: nat)
    ensures !Ne(l, r, depth).Fail? && !Eq(l, r, depth).Fail?
    ensures Eq(l, r, depth).Ok? <==> Ne(l, r, depth).Ok?
    ensures Eq(l, r, depth).Ok? ==> Ne(l, r, depth).value == Bool(!Eq(l, r, depth).value.b)
    ensures Eq(l, r, depth).Panic? ==> Ne(l, r, depth) == Eq(l, r, depth)
  {
  }

  /** Equality and inequality do not depend on the order of the operands. */
  lemma EqSymmetric(l: Value, r: Value, depth: nat)
    ensures Eq(l, r, depth) == Eq(r, l, depth) && Ne(l, r, depth) == Ne(r, l, depth)
  {
    EqualsSymmetric(l, r, depth);
  }

  /** The binary operator table of `evaluate_binary`. */
  function ApplyBinary(op: A.BinaryOp, l: Value, r: Value, depth: nat): Outcome<Value>
    reads *
  {
    match op
    case Add => Add(l, r)
    case Subtract => Sub(l, r)
    case Multiply => Mul(l, r)
    case Divide => Div(l, r)
    case Modulo => Rem(l, r)
    case Equal => Eq(l, r, depth)
    case NotEqual => Ne(l, r, depth)
    case Greater => Gt(l, r)
    case GreaterEqual => Ge(l, r)
    case Less => Lt(l, r)
    case LessEqual => Le(l, r)
    case And => And(l, r)
    case Or => Or(l, r)
  }

  function ApplyUnary(op: A.UnaryOp, v: Value): Outcome<Value>
  {
    match op
    case Negate => Neg(v)
    case Not => Not(v)
  }

  /**
   * Which operand kinds each arithmetic and comparison operator accepts;
   * `and`/`or` depend on the left operand's value and are stated by their own
   * contracts.
   */
  predicate Accepts(op: A.BinaryOp, l: Kind, r: Kind)
  {
    match op
    case Add => l == r && (l == NumberKind || l == StringKind)
    case Subtract => l == NumberKind && r == NumberKind
    case Multiply => r == NumberKind && (l == NumberKind || l == StringKind)
    case Divide => l == NumberKind && r == NumberKind
    case Modulo => l == NumberKind && r == NumberKind
    case Equal => true
    case NotEqual => true
    case Less => l == r && (l == NumberKind || l == StringKind)
    case LessEqual => l == r && (l == NumberKind || l == StringKind)
    case Greater => l == r && (l == NumberKind || l == StringKind)
    case GreaterEqual => l == r && (l == NumberKind || l == StringKind)
    case And => l == BoolKind
    case Or => l == BoolKind
  }

  /**
   * Operator typing: an operator fails with a Flow exactly on operand kinds
   * it does not accept (and on a zero divisor, and on a non-boolean right
   * operand that `and`/`or` had to look at); `==` and `!=` never fail.
   */
  lemma {:induction false} BinaryTyping(op: A.BinaryOp, l: Value, r: Value, depth: nat)
    ensures ApplyBinary(op, l, r, depth).Fail? <==> Rejects(op, l, r)
  {
    match op
    case Add => ArithmeticTyping(op, l, r, depth);
    case Subtract => ArithmeticTyping(op, l, r, depth);
    case Multiply => ArithmeticTyping(op, l, r, depth);
    case Divide => ArithmeticTyping(op, l, r, depth);
    case Modulo => ArithmeticTyping(op, l, r, depth);
    case Equal => NeNegatesEq(l, r, depth);
    case NotEqual => NeNegatesEq(l, r, depth);
    case Greater => ComparisonTyping(op, l, r, depth);
    case GreaterEqual => ComparisonTyping(op, l, r, depth);
    case Less => ComparisonTyping(op, l, r, depth);
    case LessEqual => ComparisonTyping(op, l, r, depth);
    case And => LogicTyping(op, l, r, depth);
    case Or => LogicTyping(op, l, r, depth);
  }

  /**
   * The operands on which an operator fails with a Flow: kinds it does not
   * accept, a zero divisor, and a non-boolean right operand that `and`/`or`
   * had to look at.
   */
  predicate Rejects(op: A.BinaryOp, l: Value, r: Value)
  {
    !Accepts(op, KindOf(l), KindOf(r))
    || (op == A.Divide && r == Number(0))
    || (op == A.And && l == Bool(true) && !r.Bool?)
    || (op == A.Or && l == Bool(false) && !r.Bool?)
  }

  lemma ArithmeticTyping(op: A.BinaryOp, l: Value, r: Value, depth: nat)
    requires op.Add? || op.Subtract? || op.Multiply? || op.Divide? || op.Modulo?
    ensures ApplyBinary(op, l, r, depth).Fail? <==> Rejects(op, l, r)
  {
    var res := ApplyBinary(op, l, r, depth);
    match op
    case Add => assert res == Add(l, r);
    case Subtract => assert res == Sub(l, r);
    case Multiply => assert res == Mul(l, r);
    case Divide => assert res == Div(l, r);
    case Modulo => assert res == Rem(l, r);
  }

  lemma ComparisonTyping(op: A.BinaryOp, l: Value, r: Value, depth: nat)
    requires op.Greater? || op.GreaterEqual? || op.Less? || op.LessEqual?
    ensures ApplyBinary(op, l, r, depth).Fail? <==> Rejects(op, l, r)
  {
    var res := ApplyBinary(op, l, r, depth);
    match op
    case Greater => assert res == Gt(l, r);
    case GreaterEqual => assert res == Ge(l, r);
    case Less => assert res == Lt(l, r);
    case LessEqual => assert res == Le(l, r);
  }

  lemma LogicTyping(op: A.BinaryOp, l: Value, r: Value, depth: nat)
    requires op.And? || op.Or?
    ensures ApplyBinary(op, l, r, depth).Fail? <==> Rejects(op, l, r)
  {
    var res := ApplyBinary(op, l, r, depth);
    match op
    case And => assert res == And(l, r);
    case Or => assert res == Or(l, r);
  }

  /** A binary operator that fails reports an error value; it never panics and never breaks or returns. */
  lemma BinaryErrors(op: A.BinaryOp, l: Value, r: Value, depth: nat)
    ensures ApplyBinary(op, l, r, depth).Fail? ==> ApplyBinary(op, l, r, depth).flow.Error?
  {
    match op
    case Equal => NeNegatesEq(l, r, depth);
    case NotEqual => NeNegatesEq(l, r, depth);
    case _ =>
  }

  // ------------------------------------------------------------ the stores

  /** An object: a method table and a field table, shared by every copy of the value. */
  class Object {
    var methods: map<string, Method>
    var fields: map<string, Value>

    constructor ()
      ensures methods == map[] && fields == map[]
    {
      methods := map[];
      fields := map[];
    }

    /** A new object with a copy of this method table and no fields. */
    method Instantiate() returns (o: Object)
      ensures fresh(o) && o.methods == methods && o.fields == map[]
    {
      o := new Object();
      o.methods := methods;
    }

    function GetMethod(name: string): (r: Outcome<Method>)
      reads this
      ensures r.Ok? <==> name in methods
      ensures r.Ok? ==> r.value == methods[name]
      ensures !r.Ok? ==> r == Err("Method " + name + " not found")
    {
      if name in methods then Ok(methods[name]) else Err("Method " + name + " not found")
    }

    method SetMethod(name: string, m: Method) returns (r: Outcome<Value>)
      modifies this
      ensures r == Ok(Void)
      ensures methods == old(methods)[name := m] && fields == old(fields)
      ensures GetMethod(name) == Ok(m)
      ensures forall other :: other != name ==> GetMethod(other) == old(GetMethod(other))
    {
      methods := methods[name := m];
      r := Ok(Void);
    }

    function GetValue(name: string): (r: Outcome<Value>)
      reads this
      ensures r.Ok? <==> name in fields
      ensures r.Ok? ==> r.value == fields[name]
      ensures !r.Ok? ==> r == Err("Field " + name + " not found")
    {
      if name in fields then Ok(fields[name]) else Err("Field " + name + " not found")
    }

    method SetValue(name: string, v: Value) returns (r: Outcome<Value>)
      modifies this
      ensures r == Ok(Void)
      ensures fields == old(fields)[name := v] && methods == old(methods)
      ensures GetValue(name) == Ok(v)
      ensures forall other :: other != name ==> GetValue(other) == old(GetValue(other))
    {
      fields := fields[name := v];
      r := Ok(Void);
    }
  }

  /** The elements of an array value, shared by every copy of the value. */
  class Array {
    var elements: seq<Value>

    constructor (elements: seq<Value>)
      ensures this.elements == elements
    {
      this.elements := elements;
    }

    function CheckIndex(index: int): (r: Outcome<Value>)
      reads this
      ensures r.Ok? <==> 0 <= index < |elements|
      ensures r.Ok? ==> r.value == Void
      ensures !r.Ok? ==> r == Err(IndexMessage)
    {
      if index < 0 || index >= |elements| then Err(IndexMessage) else Ok(Void)
    }

    function GetValue(index: int): (r: Outcome<Value>)
      reads this
      ensures r.Ok? <==> 0 <= index < |elements|
      ensures r.Ok? ==> r.value == elements[index]
      ensures !r.Ok? ==> r == Err(IndexMessage)
    {
      match CheckIndex(index)
      case Ok(_) => Ok(elements[index])
      case Fail(f) => Fail(f)
      case Panic(p) => Panic(p)
    }

    method SetValue(index: int, v: Value) returns (r: Outcome<Value>)
      modifies this
      ensures 0 <= index < old(|elements|) ==> r == Ok(Void) && elements == old(elements)[index := v]
      ensures !(0 <= index < old(|elements|)) ==> r == Err(IndexMessage) && elements == old(elements)
    {
      r := CheckIndex(index);
      if r.Ok? {
        elements := elements[index := v];
      }
    }

    function Length(): (r: Outcome<Value>)
      reads this
      ensures r == Ok(Number(|elements|))
    {
      Ok(Number(|elements|))
    }

    method Add(v: Value) returns (r: Outcome<Value>)
      modifies this
      ensures r == Ok(Void) && elements == old(elements) + [v]
    {
      elements := elements + [v];
      r := Ok(Void);
    }

    /** Insertion goes through the bounds check, so inserting at the length is refused. */
    method Insert(index: int, v: Value) returns (r: Outcome<Value>)
      modifies this
      ensures 0 <= index < old(|elements|) ==>
        (r == Ok(Void) && |elements| == old(|elements|) + 1 && elements[index] == v
         && elements[..index] == old(elements[..index]) && elements[index + 1..] == old(elements[index..]))
      ensures !(0 <= index < old(|elements|)) ==> r == Err(IndexMessage) && elements == old(elements)
    {
      r := CheckIndex(index);
      if r.Ok? {
        elements := elements[..index] + [v] + elements[index..];
      }
    }

    method RemoveAt(index: int) returns (r: Outcome<Value>)
      modifies this
      ensures 0 <= index < old(|elements|) ==> r == Ok(Void) && elements == old(elements[..index] + elements[index + 1..])
      ensures !(0 <= index < old(|elements|)) ==> r == Err(IndexMessage) && elements == old(elements)
    {
      r := CheckIndex(index);
      if r.Ok? {
        elements := elements[..index] + elements[index + 1..];
      }
    }

    /** Removes the first element equal to `v`; see `Position`. */
    method Remove(v: Value, depth: nat) returns (r: Outcome<Value>)
      modifies this
      ensures old(Position(elements, v, depth)).Panic? ==> r == Panic(OverflowMessage) && elements == old(elements)
      ensures old(Position(elements, v, depth)) == Ok(None) ==> r == Ok(Void) && elements == old(elements)
      ensures old(Position(elements, v, depth)).Ok? && old(Position(elements, v, depth)).value.Some? ==>
        var i := old(Position(elements, v, depth)).value.value;
        r == Ok(Void) && i < old(|elements|) && elements == old(elements[..i] + elements[i + 1..])
    {
      var i := 0;
      while i < |elements|
        invariant 0 <= i <= |elements|
        invariant Position(elements, v, depth) == Shifted(Position(elements[i..], v, depth), i)
      {
        assert elements[i..][1..] == elements[i + 1..];
        var same := Equals(elements[i], v, depth);
        if same.None? {
          return Panic(OverflowMessage);
        }
        if same.value {
          break;
        }
        i := i + 1;
      }
      if i < |elements| {
        elements := elements[..i] + elements[i + 1..];
      }
      r := Ok(Void);
    }

    method Clear() returns (r: Outcome<Value>)
      modifies this
      ensures r == Ok(Void) && elements == []
    {
      elements := [];
      r := Ok(Void);
    }
  }

  /** Moves a found position `k` places to the right. */
  function Shifted(r: Outcome<Option<nat>>, k: nat): Outcome<Option<nat>>
  {
    if r.Ok? && r.value.Some? then Ok(Some(r.value.value + k)) else r
  }

  /** Where the first element equal to `v` is, as `iter().position(|x| x == &v)` finds it. */
  function Position(xs: seq<Value>, v: Value, depth: nat): (r: Outcome<Option<nat>>)
    reads *
    ensures r.Ok? && r.value.Some? ==>
      (r.value.value < |xs| && Equals(xs[r.value.value], v, depth) == Some(true)
       && forall j :: 0 <= j < r.value.value ==> Equals(xs[j], v, depth) == Some(false))
    ensures r == Ok(None) ==> forall j :: 0 <= j < |xs| ==> Equals(xs[j], v, depth) == Some(false)
    ensures r.Panic? ==>
      (r == Panic(OverflowMessage) && exists i :: 0 <= i < |xs| && Equals(xs[i], v, depth).None?)
    ensures !r.Fail?
    decreases |xs|
  {
    if xs == [] then Ok(None)
    else
      match Equals(xs[0], v, depth)
      case None => Panic(OverflowMessage)
      case Some(same) =>
        if same then Ok(Some(0))
        else
          var rest := Position(xs[1..], v, depth);
          assert rest.Panic? ==> Equals(xs[1..][0], v, depth).None? || exists i :: 1 <= i < |xs| && Equals(xs[i], v, depth).None?;
          Shifted(rest, 1)
  }

  // --------------------------------------------------------- environment

  /** The key set of each frame, innermost first. */
  ghost function KeysOf(frames: seq<Frame>): (r: seq<set<string>>)
    reads frames
    ensures |r| == |frames|
    ensures forall i :: 0 <= i < |frames| ==> r[i] == frames[i].values.Keys
  {
    if frames == [] then [] else [frames[0].values.Keys] + KeysOf(frames[1..])
  }

  /** The position of the innermost key set holding `name`. */
  function FirstHolder(keys: seq<set<string>>, name: string): (r: Option<nat>)
    ensures r.Some? ==>
      (r.value < |keys| && name in keys[r.value] && forall j :: 0 <= j < r.value ==> name !in keys[j])
    ensures r.None? ==> forall j :: 0 <= j < |keys| ==> name !in keys[j]
  {
    if keys == [] then None
    else if name in keys[0] then Some(0)
    else match FirstHolder(keys[1..], name)
      case Some(i) => Some(i + 1)
      case None => None
  }

  /** One frame of the parent-linked environment chain. */
  class Frame {
    var values: map<string, Value>
    const parent: Frame?
    /** The enclosing frames, nearest first. */
    ghost const ancestors: seq<Frame>

    ghost predicate Linked()
      decreases |ancestors|
    {
      if parent == null then ancestors == []
      else |ancestors| > 0 && ancestors[0] == parent && ancestors[1..] == parent.ancestors && parent.Linked()
    }

    /** This frame and every frame it can see, innermost first. */
    ghost function Scope(): seq<Frame>
    {
      [this] + ancestors
    }

    constructor (parent: Frame?)
      requires parent != null ==> parent.Linked()
      ensures this.parent == parent && values == map[] && Linked()
      ensures ancestors == if parent == null then [] else parent.Scope()
    {
      this.parent := parent;
      ancestors := if parent == null then [] else parent.Scope();
      values := map[];
    }

    /** The frames of a scope sit at distinct depths, so no frame occurs twice. */
    lemma {:induction false} ScopeFacts()
      requires Linked()
      ensures forall i :: 0 <= i < |Scope()| ==> |Scope()[i].ancestors| == |Scope()| - 1 - i
      decreases |ancestors|
    {
      if parent != null {
        parent.ScopeFacts();
        assert forall i :: 1 <= i < |Scope()| ==> Scope()[i] == parent.Scope()[i - 1];
      }
    }

    /** Adds a binding to this frame only; a binding of the same name in an enclosing frame is shadowed. */
    method Define(name: string, v: Value) returns (r: Outcome<()>)
      modifies this
      ensures name in old(values) ==> r == Panic("Variable " + name + " already defined") && values == old(values)
      ensures name !in old(values) ==> r == Ok(()) && values == old(values)[name := v]
      ensures name !in old(values) && Linked() ==> Get(name) == Ok(v)
    {
      if name in values {
        return Panic("Variable " + name + " already defined");
      }
      values := values[name := v];
      r := Ok(());
    }

    /** Defines each name in order in this frame; the first name already present aborts. */
    method DefineAll(names: seq<string>, vals: seq<Value>) returns (r: Outcome<()>)
      requires |names| == |vals| && values == map[]
      modifies this
      ensures FirstRepeatedFrom(names, 0).Some? ==> r == Panic("Variable " + FirstRepeatedFrom(names, 0).value + " already defined")
      ensures FirstRepeatedFrom(names, 0).None? ==> r == Ok(()) && values == Bindings(names, vals)
    {
      r := Ok(());
      var i := 0;
      while i < |names|
        invariant 0 <= i <= |names|
        invariant Distinct(names[..i]) && values == Bindings(names[..i], vals[..i])
        invariant FirstRepeatedFrom(names, 0) == FirstRepeatedFrom(names, i)
        invariant r == Ok(())
      {
        BindStep(names, vals, i);
        r := Define(names[i], vals[i]);
        if r.Panic? {
          return;
        }
        i := i + 1;
      }
      assert names[..i] == names && vals[..i] == vals;
    }

    /** The binding in the innermost frame that holds `name`. */
    function Get(name: string): (r: Outcome<Value>)
      requires Linked()
      reads this, Scope()
      ensures FirstHolder(KeysOf(Scope()), name).Some? ==>
        r == Ok(Scope()[FirstHolder(KeysOf(Scope()), name).value].values[name])
      ensures FirstHolder(KeysOf(Scope()), name).None? ==> r == Panic("Variable " + name + " not defined")
      decreases |ancestors|
    {
      if name in values then Ok(values[name])
      else if parent != null then
        assert KeysOf(Scope()) == [values.Keys] + KeysOf(parent.Scope());
        parent.Get(name)
      else Panic("Variable " + name + " not defined")
    }

    /**
     * The innermost frame of the scope that binds `name` now binds it to
     * `v`; every other binding of every frame is as it was.
     */
    twostate predicate Rebound(name: string, new v: Value)
      reads Scope()
    {
      var h := FirstHolder(KeysOf(Scope()), name);
      forall i :: 0 <= i < |Scope()| ==>
        Scope()[i].values == if h == Some(i) then old(Scope()[i].values)[name := v] else old(Scope()[i].values)
    }

    /** `set` stated on the names each frame binds, which a store leaves as they were. */
    method Assign(name: string, v: Value) returns (r: Outcome<()>)
      requires Linked()
      modifies Scope()
      ensures FirstHolder(KeysOf(Scope()), name).None? ==> r == Panic("Variable " + name + " not defined")
      ensures FirstHolder(KeysOf(Scope()), name).Some? ==>
        r == Ok(()) && FirstHolder(KeysOf(Scope()), name).value < |Scope()|
        && Scope()[FirstHolder(KeysOf(Scope()), name).value].values[name] == v
      ensures Rebound(name, v)
    {
      ScopeFacts();
      ghost var keys := KeysOf(Scope());
      ghost var h := FirstHolder(keys, name);
      r := Set(name, v);
      if h.Some? {
        assert Scope()[h.value].values.Keys == keys[h.value];
      }
      assert forall i :: 0 <= i < |Scope()| ==> Scope()[i].values.Keys == keys[i];
      SameKeys(Scope(), keys);
    }

    /** Overwrites the binding in the innermost frame that holds `name`; it never creates one. */
    method Set(name: string, v: Value) returns (r: Outcome<()>)
      requires Linked()
      modifies Scope()
      ensures old(FirstHolder(KeysOf(Scope()), name)).None? ==>
        r == Panic("Variable " + name + " not defined")
        && forall i :: 0 <= i < |Scope()| ==> Scope()[i].values == old(Scope()[i].values)
      ensures old(FirstHolder(KeysOf(Scope()), name)).Some? ==>
        var h := old(FirstHolder(KeysOf(Scope()), name)).value;
        r == Ok(())
        && Scope()[h].values == old(Scope()[h].values)[name := v]
        && forall i :: 0 <= i < |Scope()| && i != h ==> Scope()[i].values == old(Scope()[i].values)
      decreases |ancestors|, 1
    {
      ScopeFacts();
      ghost var keys := KeysOf(Scope());
      assert keys[0] == values.Keys;
      if name in values {
        values := values[name := v];
        assert forall i :: 1 <= i < |Scope()| ==> Scope()[i] != this;
        r := Ok(());
      } else if parent == null {
        r := Panic("Variable " + name + " not defined");
      } else {
        r := SetOuter(name, v);
      }
    }

    /** `set` when this frame does not bind `name`: the enclosing frames decide. */
    method SetOuter(name: string, v: Value) returns (r: Outcome<()>)
      requires Linked() && name !in values && parent != null
      modifies Scope()
      ensures old(FirstHolder(KeysOf(Scope()), name)).None? ==>
        r == Panic("Variable " + name + " not defined")
        && forall i :: 0 <= i < |Scope()| ==> Scope()[i].values == old(Scope()[i].values)
      ensures old(FirstHolder(KeysOf(Scope()), name)).Some? ==>
        var h := old(FirstHolder(KeysOf(Scope()), name)).value;
        r == Ok(())
        && Scope()[h].values == old(Scope()[h].values)[name := v]
        && forall i :: 0 <= i < |Scope()| && i != h ==> Scope()[i].values == old(Scope()[i].values)
      decreases |ancestors|, 0
    {
      ScopeFacts();
      ghost var keys := KeysOf(Scope());
      ghost var outer := parent.Scope();
      assert keys[0] == values.Keys && outer == ancestors;
      HolderShift(keys, KeysOf(outer), name);
      assert forall i :: 1 <= i < |Scope()| ==> Scope()[i] == outer[i - 1] && Scope()[i] != this;
      ghost var h := FirstHolder(KeysOf(outer), name);
      r := parent.Set(name, v);
      forall i | 0 <= i < |Scope()| && (h.Some? ==> i != h.value + 1)
        ensures Scope()[i].values == old(Scope()[i].values)
      {
        if i > 0 {
          assert Scope()[i] == outer[i - 1];
        }
      }
    }
  }

  /** A sequence of frames whose key sets are `keys` has `keys` as its `KeysOf`. */
  lemma SameKeys(frames: seq<Frame>, keys: seq<set<string>>)
    requires |keys| == |frames| && forall i :: 0 <= i < |frames| ==> frames[i].values.Keys == keys[i]
    ensures KeysOf(frames) == keys
  {
  }

  lemma HolderShift(keys: seq<set<string>>, rest: seq<set<string>>, name: string)
    requires |keys| > 0 && keys[1..] == rest && name !in keys[0]
    ensures FirstHolder(keys, name) == if FirstHolder(rest, name).Some? then Some(FirstHolder(rest, name).value + 1) else None
  {
  }

  // --------------------------------------------------------------- heap

  /** The objects a value points at directly: itself, or a method's receiver. */
  ghost function ObjectRefs(v: Value): set<Object>
  {
    match v
    case ObjectV(o) => {o}
    case MethodV(m) => {m.receiver}
    case _ => {}
  }

  /** The array a value points at directly. */
  ghost function ArrayRefs(v: Value): set<Array>
  {
    if v.ArrayV? then {v.arr} else {}
  }

  ghost predicate Inside(v: Value, objects: set<Object>, arrays: set<Array>)
  {
    ObjectRefs(v) <= objects && ArrayRefs(v) <= arrays
  }

  /** The value an outcome carries, if any, points only into the given stores. */
  ghost predicate OutcomeInside(r: Outcome<Value>, objects: set<Object>, arrays: set<Array>)
  {
    match r
    case Ok(v) => Inside(v, objects, arrays)
    case Fail(Return(v)) => Inside(v, objects, arrays)
    case _ => true
  }

  ghost predicate AllInside(vs: seq<Value>, objects: set<Object>, arrays: set<Array>)
  {
    forall i :: 0 <= i < |vs| ==> Inside(vs[i], objects, arrays)
  }

  ghost predicate ObjectContained(o: Object, objects: set<Object>, arrays: set<Array>)
    reads o
  {
    (forall k :: k in o.fields ==> Inside(o.fields[k], objects, arrays))
    && (forall k :: k in o.methods ==> o.methods[k].receiver in objects)
  }

  ghost predicate ArrayContained(a: Array, objects: set<Object>, arrays: set<Array>)
    reads a
  {
    AllInside(a.elements, objects, arrays)
  }

  /** Every object and array in the sets points only at objects and arrays in the sets. */
  ghost predicate Closed(objects: set<Object>, arrays: set<Array>)
    reads objects, arrays
  {
    (forall o :: o in objects ==> ObjectContained(o, objects, arrays))
    && (forall a :: a in arrays ==> ArrayContained(a, objects, arrays))
  }

  /** Adding a store whose contents are already in a closed set keeps it closed. */
  lemma ClosedWithObject(objects: set<Object>, arrays: set<Array>, o: Object)
    requires Closed(objects, arrays) && ObjectContained(o, objects, arrays)
    ensures Closed(objects + {o}, arrays)
  {
  }

  lemma ClosedWithArray(objects: set<Object>, arrays: set<Array>, a: Array)
    requires Closed(objects, arrays) && ArrayContained(a, objects, arrays)
    ensures Closed(objects, arrays + {a})
  {
  }

  /** An outcome that refers to no store: what a host function can hand back. */
  type PlainOutcome = o: Outcome<Value> | OutcomeInside(o, {}, {}) witness Panic("")

  // ------------------------------------------------------------- calls

  /** Maps a body's outcome to a call's outcome, as at a method boundary. */
  function Finish(ret: Outcome<Value>): (r: Outcome<Value>)
    ensures r.Fail? ==> r.flow.Error?
    ensures r.Ok? <==> ret.Ok? || (ret.Fail? && ret.flow.Return?)
    ensures ret.Ok? ==> r == ret
    ensures ret.Fail? && ret.flow.Return? ==> r == Ok(ret.flow.returned)
    ensures ret == Fail(Break) ==> r == Err("Break statement outside of loop")
    ensures ret == Fail(Continue) ==> r == Err("Continue statement outside of loop")
    ensures ret.Fail? && ret.flow.Error? ==> r == ret
    ensures ret.Panic? ==> r == ret
  {
    match ret
    case Ok(v) => Ok(v)
    case Fail(Break) => Err("Break statement outside of loop")
    case Fail(Continue) => Err("Continue statement outside of loop")
    case Fail(Error(message)) => Err(message)
    case Fail(Return(v)) => Ok(v)
    case Panic(p) => Panic(p)
  }

  /** `execute_statement`: every statement kind is still unimplemented. */
  function StatementOutcome(s: A.Statement): Outcome<Value>
  {
    Panic(TodoMessage)
  }

  /** Running statements with these outcomes in order: the first one that is not Ok, or else Null. */
  function RunOutcomes(outcomes: seq<Outcome<Value>>): (r: Outcome<Value>)
    ensures r.Ok? <==> forall i :: 0 <= i < |outcomes| ==> outcomes[i].Ok?
    ensures r.Ok? ==> r.value == Null
    ensures !r.Ok? ==> exists i :: 0 <= i < |outcomes| && outcomes[i] == r && forall j :: 0 <= j < i ==> outcomes[j].Ok?
  {
    if outcomes == [] then Ok(Null)
    else if outcomes[0].Ok? then
      var rest := RunOutcomes(outcomes[1..]);
      assert forall i :: 1 <= i < |outcomes| ==> outcomes[i] == outcomes[1..][i - 1];
      rest
    else outcomes[0]
  }

  function RunBlock(block: seq<A.Statement>): Outcome<Value>
  {
    RunOutcomes(seq(|block|, i requires 0 <= i < |block| => StatementOutcome(block[i])))
  }

  /** The values a call binds, matching `BoundNames`: the receiver, then each argument that has a parameter. */
  function CallValues(receiver: Object, params: seq<A.Parameter>, args: seq<Value>): (vals: seq<Value>)
    ensures |vals| == |BoundNames(params, |args|)|
    ensures vals[0] == ObjectV(receiver) && forall i :: 1 <= i < |vals| ==> vals[i] == args[i - 1]
  {
    [ObjectV(receiver)] + args[..if |params| < |args| then |params| else |args|]
  }

  /**
   * `Method::call`: binding `this` and then one parameter per argument in a
   * fresh frame (a repeated name aborts), then running the body.
   */
  function CallOutcome(d: A.MethodDeclaration, argCount: nat): (r: Outcome<Value>)
    ensures FirstRepeatedFrom(BoundNames(d.signature.params, argCount), 0).Some? ==>
      r == Panic("Variable " + FirstRepeatedFrom(BoundNames(d.signature.params, argCount), 0).value + " already defined")
    ensures FirstRepeatedFrom(BoundNames(d.signature.params, argCount), 0).None? ==> r == Finish(RunBlock(d.body))
  {
    var names := BoundNames(d.signature.params, argCount);
    match FirstRepeatedFrom(names, 0)
    case Some(n) => Panic("Variable " + n + " already defined")
    case None => Finish(RunBlock(d.body))
  }

  /**
   * Since no statement is implemented yet, a user method call with distinct
   * bound names yields Null for an empty body and aborts otherwise; no Flow
   * other than Error ever leaves a call.
   */
  lemma CallOutcomeShape(d: A.MethodDeclaration, argCount: nat)
    ensures CallOutcome(d, argCount).Fail? ==> CallOutcome(d, argCount).flow.Error?
    ensures CallOutcome(d, argCount).Ok? <==>
      d.body == [] && Distinct(BoundNames(d.signature.params, argCount))
    ensures CallOutcome(d, argCount).Ok? ==> CallOutcome(d, argCount).value == Null
  {
  }

  /** A user method call hands back no store. */
  lemma CallOutcomePlain(d: A.MethodDeclaration, argCount: nat)
    ensures OutcomeInside(CallOutcome(d, argCount), {}, {})
  {
    CallOutcomeShape(d, argCount);
  }

  // ----------------------------------------------------------- evaluation

  /** One sub-expression the evaluator ran, and what it gave. */
  datatype Step = Step(expr: A.Expression, outcome: Outcome<Value>)

  /** The steps ran a prefix of `es` in order, and only the last of them may have stopped. */
  ghost predicate Prefix(steps: seq<Step>, es: seq<A.Expression>)
  {
    |steps| <= |es|
    && (forall i :: 0 <= i < |steps| ==> steps[i].expr == es[i])
    && (forall i :: 0 <= i < |steps| - 1 ==> steps[i].outcome.Ok?)
  }

  ghost predicate AllOk(steps: seq<Step>)
  {
    forall i :: 0 <= i < |steps| ==> steps[i].outcome.Ok?
  }

  ghost function Values(steps: seq<Step>): (vs: seq<Value>)
    requires AllOk(steps)
    ensures |vs| == |steps| && forall i :: 0 <= i < |steps| ==> vs[i] == steps[i].outcome.value
  {
    seq(|steps|, i requires 0 <= i < |steps| && AllOk(steps) => steps[i].outcome.value)
  }

  /** No step stopped the evaluation. */
  ghost predicate Done(steps: seq<Step>)
  {
    |steps| == 0 || steps[|steps| - 1].outcome.Ok?
  }

  /** Either every one of `es` succeeded, or the steps stopped early. */
  ghost predicate Covered(steps: seq<Step>, es: seq<A.Expression>)
  {
    Prefix(steps, es) && (Done(steps) ==> |steps| == |es| && AllOk(steps))
  }

  /**
   * `es` were evaluated left to right: either all of them succeeded, or the
   * first one that did not is the last step, and its outcome is `r`.
   */
  ghost predicate Sequenced(steps: seq<Step>, es: seq<A.Expression>, r: Outcome<Value>)
  {
    Covered(steps, es) && (!Done(steps) ==> r == steps[|steps| - 1].outcome)
  }

  /** One more step after steps that all succeeded. */
  lemma Append(steps: seq<Step>, s: Step, es: seq<A.Expression>)
    requires Prefix(steps, es) && AllOk(steps) && |steps| < |es| && s.expr == es[|steps|]
    ensures Prefix(steps + [s], es) && (Done(steps + [s]) <==> s.outcome.Ok?)
    ensures s.outcome.Ok? ==> AllOk(steps + [s]) && Values(steps + [s]) == Values(steps) + [s.outcome.value]
  {
    if s.outcome.Ok? {
      assert AllOk(steps + [s]);
      assert Values(steps + [s]) == Values(steps) + [s.outcome.value];
    }
  }

  /** A successful step in front of the steps of the remaining expressions. */
  lemma Prepend(s: Step, rest: seq<Step>, e: A.Expression, es: seq<A.Expression>)
    requires s.expr == e && s.outcome.Ok? && Covered(rest, es)
    ensures Covered([s] + rest, [e] + es) && (Done([s] + rest) <==> Done(rest))
    ensures !Done(rest) ==> ([s] + rest)[|rest|] == rest[|rest| - 1]
    ensures Done(rest) ==> Values([s] + rest) == [s.outcome.value] + Values(rest)
  {
    if Done(rest) {
      assert AllOk([s] + rest);
      assert Values([s] + rest) == [s.outcome.value] + Values(rest);
    }
  }

  /** Re-types an outcome that is not Ok. */
  function Stop<T, U>(o: Outcome<T>): (r: Outcome<U>)
    requires !o.Ok?
    ensures !r.Ok?
  {
    if o.Fail? then Fail(o.flow) else Panic(o.reason)
  }

  function FieldNames(fields: seq<A.Field>): (names: seq<string>)
    ensures |names| == |fields| && forall i :: 0 <= i < |fields| ==> names[i] == fields[i].name
  {
    seq(|fields|, i requires 0 <= i < |fields| => fields[i].name)
  }

  function FieldValues(fields: seq<A.Field>): (es: seq<A.Expression>)
    ensures |es| == |fields| && forall i :: 0 <= i < |fields| ==> es[i] == fields[i].value
  {
    seq(|fields|, i requires 0 <= i < |fields| => fields[i].value)
  }

  /** The operand lists evaluated left to right: arguments, elements and field values. */
  function Operands(e: A.Expression): seq<A.Expression>
  {
    match e
    case Call(_, arguments) => arguments
    case MethodAccess(_, _, arguments) => arguments
    case ArrayConstruction(elements) => elements
    case ObjectConstruction(_, fields) => FieldValues(fields)
    case _ => []
  }

  /** The sub-expressions an assignment evaluates after its value, to reach its target. */
  function TargetOperands(target: A.Expression): seq<A.Expression>
  {
    match target
    case FieldAccess(receiver, _) => [receiver]
    case ArrayAccess(indexed, index) => [indexed, index]
    case _ => []
  }

  /**
   * Whether evaluating `e` can run an assignment.  Assignment is the only
   * expression that writes to a binding, field or element that already
   * exists: calls run method bodies that stop at their first statement, and
   * host functions return a value without touching the store.
   */
  function Writes(e: A.Expression): bool
  {
    match e
    case Call(callee, arguments) => Writes(callee) || exists i :: 0 <= i < |arguments| && Writes(arguments[i])
    case Binary(left, _, right) => Writes(left) || Writes(right)
    case Unary(_, operand) => Writes(operand)
    case MethodAccess(receiver, _, arguments) => Writes(receiver) || exists i :: 0 <= i < |arguments| && Writes(arguments[i])
    case FieldAccess(receiver, _) => Writes(receiver)
    case ArrayAccess(indexed, index) => Writes(indexed) || Writes(index)
    case Assignment(_, _) => true
    case ObjectConstruction(_, fields) => exists i :: 0 <= i < |fields| && Writes(fields[i].value)
    case ArrayConstruction(elements) => exists i :: 0 <= i < |elements| && Writes(elements[i])
    case _ => false
  }

  /** Whether evaluating any of `es` can run an assignment. */
  function WritesAny(es: seq<A.Expression>): bool
  {
    exists i :: 0 <= i < |es| && Writes(es[i])
  }

  /** Whether evaluating the operands of an assignment target can run an assignment. */
  function TargetWrites(target: A.Expression): bool
  {
    match target
    case FieldAccess(receiver, _) => Writes(receiver)
    case ArrayAccess(indexed, index) => Writes(indexed) || Writes(index)
    case _ => false
  }

  /** The elements after a store of `v` at `n`: the one element replaced, or none when `n` is out of range. */
  function Written(elements: seq<Value>, n: int, v: Value): (r: seq<Value>)
    ensures |r| == |elements|
    ensures forall i :: 0 <= i < |r| ==> r[i] == if i == n then v else elements[i]
  {
    if 0 <= n < |elements| then elements[n := v] else elements
  }

  // ------------------------------------------------------------------ fates

  /**
   * What evaluating an expression gives, as far as that is decided without
   * the store, the environment, method bodies or host functions: an outcome
   * that stops the evaluation, success with a value of a known kind, or open.
   */
  datatype Fate = Stops(outcome: Outcome<Value>) | Makes(kind: Kind) | Open

  /** What evaluating a list left to right gives: all succeed, the first failure stops it, or open. */
  datatype Run = Completes | Halts(outcome: Outcome<Value>) | Unsure

  /** `r` is an outcome the fate allows. */
  predicate Meets(r: Outcome<Value>, f: Fate)
  {
    match f
    case Stops(o) => r == o && !o.Ok?
    case Makes(k) => r.Ok? && KindOf(r.value) == k
    case Open => true
  }

  /**
   * The fate of evaluating `e` when `types` are the names with a prototype.
   * Literals and identifiers are not implemented yet; every other kind of
   * expression runs its operands in the order `evaluate_*` does and passes
   * the first failure on.
   */
  function FateOf(types: set<string>, e: A.Expression): Fate
    decreases e, 2, 0
  {
    match e
    case Call(callee, arguments) =>
      (match FateOf(types, callee)
       case Makes(k) => Calling(k, RunFrom(types, e, arguments, 0))
       case f => f)
    case Binary(left, op, right) =>
      (match FateOf(types, left)
       case Makes(l) =>
         (match FateOf(types, right)
          case Makes(r) => OperatorFate(op, l, r)
          case f => f)
       case f => f)
    case Unary(op, operand) =>
      (match FateOf(types, operand)
       case Makes(k) => UnaryFate(op, k)
       case f => f)
    case MethodAccess(receiver, _, _) => Receiving(FateOf(types, receiver), Open)
    case FieldAccess(receiver, _) => Receiving(FateOf(types, receiver), Open)
    case ArrayAccess(indexed, index) => Indexing(FateOf(types, indexed), FateOf(types, index))
    case Assignment(target, value) =>
      (match FateOf(types, value)
       case Makes(k) => Storing(types, target, k)
       case f => f)
    case ObjectConstruction(typeName, fields) =>
      if typeName.Some? && typeName.value !in types then Stops(Err("Type " + typeName.value + " not defined"))
      else Collecting(RunFrom(types, e, FieldValues(fields), 0), ObjectKind)
    case ArrayConstruction(elements) => Collecting(RunFrom(types, e, elements, 0), ArrayKind)
    case _ => Stops(Panic(TodoMessage))
  }

  /** The run of the operands of `whole` from the `i`-th on. */
  function RunFrom(types: set<string>, whole: A.Expression, es: seq<A.Expression>, i: nat): Run
    requires es == Operands(whole) && i <= |es|
    decreases whole, 1, |es| - i
  {
    if i == |es| then Completes
    else
      match FateOf(types, es[i])
      case Stops(o) => Halts(o)
      case Makes(_) => RunFrom(types, whole, es, i + 1)
      case Open => Unsure
  }

  /** What an assignment of a value of kind `k` to `target` gives, once the value is Ok. */
  function Storing(types: set<string>, target: A.Expression, k: Kind): Fate
    decreases target, 0, 0
  {
    match target
    case Identifier(_) => Open
    case FieldAccess(receiver, _) => Receiving(FateOf(types, receiver), Makes(k))
    case ArrayAccess(indexed, index) => Indexing(FateOf(types, indexed), FateOf(types, index))
    case _ => Stops(Err("Invalid assignment target"))
  }

  /** A list that completes gives a new value of kind `k`. */
  function Collecting(run: Run, k: Kind): Fate
  {
    match run
    case Completes => Makes(k)
    case Halts(o) => Stops(o)
    case Unsure => Open
  }

  /** A call of a callee of kind `k`: only methods and native methods can be called. */
  function Calling(k: Kind, run: Run): Fate
  {
    match run
    case Completes =>
      if k == MethodKind || k == NativeMethodKind then Open else Stops(Err("Can only call methods on objects"))
    case Halts(o) => Stops(o)
    case Unsure => Open
  }

  /** A member of a receiver: it must be an object, and then `found` applies. */
  function Receiving(receiver: Fate, found: Fate): Fate
  {
    match receiver
    case Makes(k) => if k == ObjectKind then found else Stops(Err("Invalid operands for object operation"))
    case f => f
  }

  /** An element, read or written: the indexed value must be an array, then the index a number in range. */
  function Indexing(indexed: Fate, index: Fate): Fate
  {
    match indexed
    case Makes(a) =>
      if a != ArrayKind then Stops(Err("Invalid operands for array operation"))
      else
        (match index
         case Makes(n) => if n == NumberKind then Open else Stops(Err("Invalid operands for number operation"))
         case f => f)
    case f => f
  }

  /** What an operator gives on operands of kinds `l` and `r`. */
  function OperatorFate(op: A.BinaryOp, l: Kind, r: Kind): Fate
  {
    match op
    case Add =>
      if l == r && (l == NumberKind || l == StringKind) then Makes(l) else Stops(Err("Invalid operands for add operation"))
    case Subtract =>
      if l == NumberKind && r == NumberKind then Makes(NumberKind) else Stops(Err("Invalid operands for subtraction operation"))
    case Multiply =>
      if r == NumberKind && (l == NumberKind || l == StringKind) then Makes(l)
      else Stops(Err("Invalid operands for multiplication operation"))
    case Divide =>
      if l == NumberKind && r == NumberKind then Open else Stops(Err("Invalid operands for division operation"))
    case Modulo =>
      if l == NumberKind && r == NumberKind then Makes(NumberKind) else Stops(Err("Invalid operands for remainder operation"))
    case Equal => Open
    case NotEqual => Open
    case Less => Comparing(l, r, "Invalid operands for less than operation")
    case LessEqual => Comparing(l, r, "Invalid operands for less than or equal operation")
    case Greater => Comparing(l, r, "Invalid operands for greater than operation")
    case GreaterEqual => Comparing(l, r, "Invalid operands for greater than or equal operation")
    case And => Deciding(l, r)
    case Or => Deciding(l, r)
  }

  function Comparing(l: Kind, r: Kind, message: string): Fate
  {
    if l == r && (l == NumberKind || l == StringKind) then Makes(BoolKind) else Stops(Err(message))
  }

  /** `and`/`or`: the left operand must be a boolean; whether the right one is looked at depends on its value. */
  function Deciding(l: Kind, r: Kind): Fate
  {
    if l != BoolKind then Stops(Err("Invalid operands for boolean operation"))
    else if r == BoolKind then Makes(BoolKind) else Open
  }

  function UnaryFate(op: A.UnaryOp, k: Kind): Fate
  {
    match op
    case Negate => if k == NumberKind then Makes(NumberKind) else Stops(Err("Invalid operands for negation operation"))
    case Not => if k == BoolKind then Makes(BoolKind) else Stops(Err("Invalid operands for boolean operation"))
  }

  /** The operator table agrees with `OperatorFate` on every pair of values. */
  lemma OperatorFateSound(op: A.BinaryOp, l: Value, r: Value, depth: nat)
    ensures Meets(ApplyBinary(op, l, r, depth), OperatorFate(op, KindOf(l), KindOf(r)))
  {
    match op
    case Add =>
    case Subtract =>
    case Multiply =>
    case Divide =>
    case Modulo =>
    case Equal =>
    case NotEqual =>
    case Less =>
    case LessEqual =>
    case Greater =>
    case GreaterEqual =>
    case And =>
    case Or =>
  }

  lemma UnaryFateSound(op: A.UnaryOp, v: Value)
    ensures Meets(ApplyUnary(op, v), UnaryFate(op, KindOf(v)))
  {
  }

  /** Every step's outcome is one its expression's fate allows. */
  ghost predicate Fated(types: set<string>, steps: seq<Step>)
  {
    forall i :: 0 <= i < |steps| ==> Meets(steps[i].outcome, FateOf(types, steps[i].expr))
  }

  /** The steps of a list ended as its run says: all succeeded, or the last one stopped with the run's outcome. */
  ghost predicate Ran(steps: seq<Step>, run: Run)
  {
    match run
    case Completes => Done(steps)
    case Halts(o) => !Done(steps) && steps[|steps| - 1].outcome == o
    case Unsure => true
  }

  lemma FatedJoin(types: set<string>, a: seq<Step>, b: seq<Step>)
    requires Fated(types, a) && Fated(types, b)
    ensures Fated(types, a + b)
  {
    forall i | 0 <= i < |a + b|
      ensures Meets((a + b)[i].outcome, FateOf(types, (a + b)[i].expr))
    {
      if i >= |a| {
        assert (a + b)[i] == b[i - |a|];
      }
    }
  }

  /** The first `i` operands of `whole` ran as their fates allow, and the run so far did not halt. */
  ghost predicate Following(types: set<string>, whole: A.Expression, es: seq<A.Expression>, i: nat, steps: seq<Step>)
  {
    es == Operands(whole) && i <= |es| && Fated(types, steps)
    && RunFrom(types, whole, es, 0) in {RunFrom(types, whole, es, i), Unsure}
  }

  /** One more operand: an Ok value lets the run go on, any other outcome is where the run halts. */
  lemma Follow(types: set<string>, whole: A.Expression, es: seq<A.Expression>, steps: seq<Step>, v: Outcome<Value>)
    requires Following(types, whole, es, |steps|, steps) && |steps| < |es|
    requires Meets(v, FateOf(types, es[|steps|]))
    ensures v.Ok? ==> Following(types, whole, es, |steps| + 1, steps + [Step(es[|steps|], v)])
    ensures !v.Ok? ==>
      Fated(types, steps + [Step(es[|steps|], v)]) && Ran(steps + [Step(es[|steps|], v)], RunFrom(types, whole, es, 0))
  {
    FatedJoin(types, steps, [Step(es[|steps|], v)]);
  }

  /** A run that followed every operand completes. */
  lemma FollowedAll(types: set<string>, whole: A.Expression, es: seq<A.Expression>, steps: seq<Step>)
    requires Following(types, whole, es, |es|, steps) && Done(steps)
    ensures Fated(types, steps) && Ran(steps, RunFrom(types, whole, es, 0))
  {
  }

  /** An assignment whose value met its fate and whose store met `Storing` meets the assignment's fate. */
  lemma Assigned(types: set<string>, e: A.Expression, steps: seq<Step>, r: Outcome<Value>)
    requires e.Assignment? && |steps| >= 1 && steps[0].expr == e.value && steps[0].outcome.Ok?
    requires Meets(steps[0].outcome, FateOf(types, e.value)) && Fated(types, steps[1..])
    requires Meets(r, Storing(types, e.target, KindOf(steps[0].outcome.value)))
    ensures Meets(r, FateOf(types, e)) && Fated(types, steps)
  {
    FatedJoin(types, [steps[0]], steps[1..]);
    assert steps == [steps[0]] + steps[1..];
  }

  /** A call whose callee and arguments met their fates meets the call's fate. */
  lemma Called(types: set<string>, e: A.Expression, f: Outcome<Value>, rest: seq<Step>, r: Outcome<Value>)
    requires e.Call? && f.Ok? && Meets(f, FateOf(types, e.callee)) && Fated(types, rest)
    requires Meets(r, Calling(KindOf(f.value), RunFrom(types, e, e.arguments, 0)))
    ensures Meets(r, FateOf(types, e)) && Fated(types, [Step(e.callee, f)] + rest)
  {
    FatedJoin(types, [Step(e.callee, f)], rest);
  }

  /** Dispatching after a list run meets the call's fate: only methods and native methods can be called. */
  lemma Dispatched(f: Value, run: Run, steps: seq<Step>, r: Outcome<Value>)
    requires Ran(steps, run) && (!Done(steps) ==> r == steps[|steps| - 1].outcome)
    requires Done(steps) && !f.MethodV? && !f.NativeMethodV? ==> r == Err("Can only call methods on objects")
    ensures Meets(r, Calling(KindOf(f), run))
  {
  }

  /** A method access on an object whose arguments met their fates meets the access's fate. */
  lemma MemberCalled(types: set<string>, e: A.Expression, target: Outcome<Value>, rest: seq<Step>, r: Outcome<Value>)
    requires e.MethodAccess? && target.Ok? && target.value.ObjectV?
    requires Meets(target, FateOf(types, e.receiver)) && Fated(types, rest)
    ensures Meets(r, FateOf(types, e)) && Fated(types, [Step(e.receiver, target)] + rest)
  {
    FatedJoin(types, [Step(e.receiver, target)], rest);
  }

  /** A store into a field: the receiver's error, the non-object error, or the stored value. */
  lemma FieldAssigned(types: set<string>, receiver: A.Expression, target: Outcome<Value>, v: Value, r: Outcome<Value>)
    requires Meets(target, FateOf(types, receiver))
    requires !target.Ok? ==> r == target
    requires target.Ok? && !target.value.ObjectV? ==> r == Err("Invalid operands for object operation")
    requires target.Ok? && target.value.ObjectV? ==> r == Ok(v)
    ensures Meets(r, Receiving(FateOf(types, receiver), Makes(KindOf(v))))
    ensures Fated(types, [Step(receiver, target)])
  {
  }

  /** A literal or an identifier: the expressions whose evaluation is still `todo!()`. */
  predicate Unimplemented(e: A.Expression)
  {
    e.Identifier? || e.StringLiteral? || e.NumberLiteral? || e.BoolLiteral? || e.Null?
  }

  /** The first expression evaluating `e` reaches that evaluates no operand of its own. */
  function Leading(types: set<string>, e: A.Expression): A.Expression
  {
    match e
    case Call(callee, _) => Leading(types, callee)
    case Binary(left, _, _) => Leading(types, left)
    case Unary(_, operand) => Leading(types, operand)
    case MethodAccess(receiver, _, _) => Leading(types, receiver)
    case FieldAccess(receiver, _) => Leading(types, receiver)
    case ArrayAccess(indexed, _) => Leading(types, indexed)
    case Assignment(_, value) => Leading(types, value)
    case ObjectConstruction(typeName, fields) =>
      if (typeName.Some? && typeName.value !in types) || fields == [] then e else Leading(types, fields[0].value)
    case ArrayConstruction(elements) => if elements == [] then e else Leading(types, elements[0])
    case _ => e
  }

  /** An expression whose first evaluated leaf is a literal or an identifier stops with the not-implemented panic. */
  lemma {:induction false} UnimplementedFirst(types: set<string>, e: A.Expression)
    ensures Unimplemented(Leading(types, e)) ==> FateOf(types, e) == Stops(Panic(TodoMessage))
  {
    match e
    case Call(callee, _) => UnimplementedFirst(types, callee);
    case Binary(left, _, _) => UnimplementedFirst(types, left);
    case Unary(_, operand) => UnimplementedFirst(types, operand);
    case MethodAccess(receiver, _, _) => UnimplementedFirst(types, receiver);
    case FieldAccess(receiver, _) => UnimplementedFirst(types, receiver);
    case ArrayAccess(indexed, _) => UnimplementedFirst(types, indexed);
    case Assignment(_, value) => UnimplementedFirst(types, value);
    case ObjectConstruction(typeName, fields) =>
      if !(typeName.Some? && typeName.value !in types) && fields != [] {
        UnimplementedFirst(types, fields[0].value);
      }
    case ArrayConstruction(elements) =>
      if elements != [] {
        UnimplementedFirst(types, elements[0]);
      }
    case _ =>
  }

  /** `1 + 2` stops at its left literal. */
  lemma SumOfLiteralsPanics(types: set<string>)
    ensures FateOf(types, A.Binary(A.NumberLiteral("1"), A.Add, A.NumberLiteral("2"))) == Stops(Panic(TodoMessage))
  {
  }

  /** `[[]]` succeeds with an array. */
  lemma NestedEmptyArray(types: set<string>)
    ensures FateOf(types, A.ArrayConstruction([A.ArrayConstruction([])])) == Makes(ArrayKind)
  {
  }

  /** An object literal naming a type without a prototype fails before any field is evaluated. */
  lemma UnknownTypeFirst(types: set<string>, name: string, fields: seq<A.Field>)
    ensures name !in types ==> FateOf(types, A.ObjectConstruction(Some(name), fields)) == Stops(Err("Type " + name + " not defined"))
  {
  }

  class Interpreter {
    var env: Frame
    var prototypes: map<string, Object>
    /** How deeply nested a structure `==` can compare before the native stack overflows. */
    const depth: nat
    /** The behaviour of the host functions behind native methods. */
    const host: (string, seq<Value>) -> PlainOutcome
    /** Every object and array the interpreter can reach. */
    ghost var objects: set<Object>
    ghost var arrays: set<Array>

    ghost predicate Valid()
      reads this, objects, arrays
    {
      env.Linked() && (forall t :: t in prototypes ==> prototypes[t] in objects)
      && Closed(objects, arrays)
    }

    /**
     * What any evaluation keeps: the environment and the prototypes, the
     * method tables of every object that existed, and the closure of the
     * stores, which grow only by new objects and arrays.
     */
    twostate predicate Evolved()
      reads this, objects, arrays
    {
      Valid() && old(objects) <= objects && old(arrays) <= arrays
      && (forall o :: o in objects && o !in old(objects) ==> fresh(o))
      && (forall a :: a in arrays && a !in old(arrays) ==> fresh(a))
      && env == old(env) && prototypes == old(prototypes)
      && (forall o :: o in old(objects) ==> o.methods == old(o.methods))
    }

    /** `Evolved`, except that `o`, allocated before, may be among the objects newly reachable. */
    twostate predicate EvolvedWith(o: Object)
      reads this, objects, arrays
    {
      Valid() && old(objects) <= objects && old(arrays) <= arrays
      && (forall x :: x in objects && x !in old(objects) && x != o ==> fresh(x))
      && (forall a :: a in arrays && a !in old(arrays) ==> fresh(a))
      && env == old(env) && prototypes == old(prototypes)
      && (forall x :: x in old(objects) ==> x.methods == old(x.methods))
    }

    ghost predicate Within(r: Outcome<Value>)
      reads this
    {
      OutcomeInside(r, objects, arrays)
    }

    /** Every frame of the scope binds what it bound before. */
    twostate predicate FramesKept()
      reads *
    {
      forall i :: 0 <= i < |old(env.Scope())| ==> old(env.Scope())[i].values == old(env.Scope()[i].values)
    }

    /**
     * Every field of an object and every element of an array that existed
     * before is as it was, except in the one object and the one array named
     * (null names none).
     */
    twostate predicate HeapKept(new obj: Object?, new arr: Array?)
      reads *
    {
      (forall o {:trigger o in old(objects)} :: o in old(objects) && o != obj ==> o.fields == old(o.fields))
      && (forall a {:trigger a in old(arrays)} :: a in old(arrays) && a != arr ==> a.elements == old(a.elements))
    }

    /** No binding, field or element that existed before has changed. */
    twostate predicate Kept()
      reads *
    {
      FramesKept() && HeapKept(null, null)
    }

    /**
     * What the store of an assignment to `target` with value `v` changed,
     * given the steps that evaluated its operands: the binding in the
     * innermost frame holding the name, the field of the receiver object or
     * the element of the array at a number index in range, and nothing
     * else.  A receiver that is not an object, an array that is not an
     * array or an index that is not a number changes nothing.
     */
    twostate predicate Stored(target: A.Expression, new v: Value, new steps: seq<Step>)
      reads *
    {
      match target
      case Identifier(name) => old(env).Rebound(name, v) && HeapKept(null, null)
      case FieldAccess(_, member) =>
        FramesKept()
        && if |steps| >= 2 && steps[1].outcome.Ok? && steps[1].outcome.value.ObjectV? then
             HeapKept(steps[1].outcome.value.obj, null)
             && (steps[1].outcome.value.obj in old(objects) ==>
                   steps[1].outcome.value.obj.fields == old(steps[1].outcome.value.obj.fields)[member := v])
           else HeapKept(null, null)
      case ArrayAccess(_, _) =>
        FramesKept()
        && if |steps| >= 3 && steps[1].outcome.Ok? && steps[1].outcome.value.ArrayV?
              && steps[2].outcome.Ok? && steps[2].outcome.value.Number? then
             HeapKept(null, steps[1].outcome.value.arr)
             && (steps[1].outcome.value.arr in old(arrays) ==>
                   steps[1].outcome.value.arr.elements == Written(old(steps[1].outcome.value.arr.elements), steps[2].outcome.value.n, v))
           else HeapKept(null, null)
      case _ => Kept()
    }

    constructor (depth: nat, host: (string, seq<Value>) -> PlainOutcome)
      ensures Valid() && fresh(env) && env.parent == null && env.values == map[] && prototypes == map[]
      ensures this.depth == depth && this.host == host
    {
      this.depth := depth;
      this.host := host;
      var root := new Frame(null);
      env := root;
      prototypes := map[];
      objects := {};
      arrays := {};
    }

    /**
     * `interpret`: runs a block's statements in order until one is not Ok.
     * Every statement is still unimplemented, so the loop never gets past
     * the first statement.
     */
    method Interpret(block: seq<A.Statement>) returns (r: Outcome<Value>)
      ensures r == RunBlock(block)
    {
      if block == [] {
        return Ok(Null);
      }
      r := ExecuteStatement(block[0]);
      assert RunBlock(block) == r by {
        var outcomes := seq(|block|, i requires 0 <= i < |block| => StatementOutcome(block[i]));
        assert outcomes[0] == r;
      }
    }

    method ExecuteStatement(s: A.Statement) returns (r: Outcome<Value>)
      ensures r == StatementOutcome(s)
    {
      r := Panic(TodoMessage);
    }

    /** The outcome of calling `f` on evaluated arguments. */
    ghost function Dispatch(f: Value, args: seq<Value>): Outcome<Value>
      reads this
    {
      match f
      case MethodV(m) => CallOutcome(m.declaration, |args|)
      case NativeMethodV(n) => host(n.code, args)
      case _ => Err("Can only call methods on objects")
    }

    /** What evaluating `e` did, given the sub-evaluations it ran. */
    ghost predicate Rule(e: A.Expression, r: Outcome<Value>, steps: seq<Step>)
      reads *
    {
      match e
      case Call(callee, arguments) => CallRule(callee, arguments, r, steps)
      case Binary(left, op, right) => BinaryRule(left, op, right, r, steps)
      case Unary(op, operand) => UnaryRule(op, operand, r, steps)
      case MethodAccess(receiver, member, arguments) => MethodAccessRule(receiver, member, arguments, r, steps)
      case FieldAccess(receiver, member) => FieldAccessRule(receiver, member, r, steps)
      case ArrayAccess(indexed, index) => ArrayAccessRule(indexed, index, r, steps)
      case Assignment(target, value) => AssignmentRule(target, value, r, steps)
      case ObjectConstruction(typeName, fields) => ObjectConstructionRule(typeName, fields, r, steps)
      case ArrayConstruction(elements) => ArrayConstructionRule(elements, r, steps)
      case _ => steps == [] && r == Panic(TodoMessage)
    }

    /** The callee, then the arguments; then the callee's value decides what runs. */
    ghost predicate CallRule(callee: A.Expression, arguments: seq<A.Expression>, r: Outcome<Value>, steps: seq<Step>)
      reads this
    {
      Sequenced(steps, [callee] + arguments, r)
      && (Done(steps) ==> r == Dispatch(Values(steps)[0], Values(steps)[1..]))
    }

    /** Both operands, left first, before the operator applies. */
    ghost predicate BinaryRule(left: A.Expression, op: A.BinaryOp, right: A.Expression, r: Outcome<Value>, steps: seq<Step>)
      reads *
    {
      Sequenced(steps, [left, right], r)
      && (Done(steps) ==> r == ApplyBinary(op, Values(steps)[0], Values(steps)[1], depth))
    }

    ghost predicate UnaryRule(op: A.UnaryOp, operand: A.Expression, r: Outcome<Value>, steps: seq<Step>)
    {
      Sequenced(steps, [operand], r)
      && (Done(steps) ==> r == ApplyUnary(op, Values(steps)[0]))
    }

    /** The receiver must be an object and the method must exist before any argument is evaluated. */
    ghost predicate MethodAccessRule(receiver: A.Expression, member: string, arguments: seq<A.Expression>, r: Outcome<Value>, steps: seq<Step>)
      reads *
    {
      Prefix(steps, [receiver] + arguments) && |steps| >= 1
      && (!steps[0].outcome.Ok? ==> |steps| == 1 && r == steps[0].outcome)
      && (steps[0].outcome.Ok? && !steps[0].outcome.value.ObjectV? ==>
            |steps| == 1 && r == Err("Invalid operands for object operation"))
      && (steps[0].outcome.Ok? && steps[0].outcome.value.ObjectV? ==>
            var o := steps[0].outcome.value.obj;
            (member !in o.methods ==> |steps| == 1 && r == Err("Method " + member + " not found"))
            && (member in o.methods ==>
                  Sequenced(steps, [receiver] + arguments, r)
                  && (Done(steps) ==> r == CallOutcome(o.methods[member].declaration, |arguments|))))
    }

    /** The receiver must be an object that has the field. */
    ghost predicate FieldAccessRule(receiver: A.Expression, member: string, r: Outcome<Value>, steps: seq<Step>)
      reads *
    {
      Sequenced(steps, [receiver], r)
      && (Done(steps) ==>
            var target := Values(steps)[0];
            r == if target.ObjectV? then target.obj.GetValue(member) else Err("Invalid operands for object operation"))
    }

    /** The indexed value must be an array before the index is evaluated, and the index a number. */
    ghost predicate ArrayAccessRule(indexed: A.Expression, index: A.Expression, r: Outcome<Value>, steps: seq<Step>)
      reads *
    {
      Prefix(steps, [indexed, index]) && |steps| >= 1
      && (!steps[0].outcome.Ok? ==> |steps| == 1 && r == steps[0].outcome)
      && (steps[0].outcome.Ok? && !steps[0].outcome.value.ArrayV? ==>
            |steps| == 1 && r == Err("Invalid operands for array operation"))
      && (steps[0].outcome.Ok? && steps[0].outcome.value.ArrayV? ==>
            var a := steps[0].outcome.value.arr;
            |steps| == 2
            && (!steps[1].outcome.Ok? ==> r == steps[1].outcome)
            && (steps[1].outcome.Ok? ==>
                  r == if steps[1].outcome.value.Number? then a.GetValue(steps[1].outcome.value.n)
                       else Err("Invalid operands for number operation")))
    }

    /**
     * The value is evaluated first; then a variable is overwritten where it is
     * bound, or a field or element is written through to the shared store,
     * and the assigned value is the result.
     */
    ghost predicate AssignmentRule(target: A.Expression, value: A.Expression, r: Outcome<Value>, steps: seq<Step>)
      reads *
    {
      Prefix(steps, [value] + TargetOperands(target)) && |steps| >= 1
      && (!steps[0].outcome.Ok? ==> |steps| == 1 && r == steps[0].outcome)
      && (steps[0].outcome.Ok? ==>
            var v := steps[0].outcome.value;
            match target
            case Identifier(name) =>
              var h := FirstHolder(KeysOf(env.Scope()), name);
              |steps| == 1
              && (h.None? ==> r == Panic("Variable " + name + " not defined"))
              && (h.Some? ==> r == Ok(v) && h.value < |env.Scope()| && env.Scope()[h.value].values[name] == v)
            case FieldAccess(_, member) =>
              |steps| == 2
              && (!steps[1].outcome.Ok? ==> r == steps[1].outcome)
              && (steps[1].outcome.Ok? && !steps[1].outcome.value.ObjectV? ==> r == Err("Invalid operands for object operation"))
              && (steps[1].outcome.Ok? && steps[1].outcome.value.ObjectV? ==>
                    r == Ok(v) && steps[1].outcome.value.obj.GetValue(member) == Ok(v))
            case ArrayAccess(_, _) => ArrayStoreRule(v, r, steps)
            case _ => |steps| == 1 && r == Err("Invalid assignment target"))
    }

    ghost predicate ArrayStoreRule(v: Value, r: Outcome<Value>, steps: seq<Step>)
      requires |steps| >= 1
      reads *
    {
      |steps| >= 2
      && (!steps[1].outcome.Ok? ==> |steps| == 2 && r == steps[1].outcome)
      && (steps[1].outcome.Ok? && !steps[1].outcome.value.ArrayV? ==>
            |steps| == 2 && r == Err("Invalid operands for array operation"))
      && (steps[1].outcome.Ok? && steps[1].outcome.value.ArrayV? ==>
            var a := steps[1].outcome.value.arr;
            |steps| == 3
            && (!steps[2].outcome.Ok? ==> r == steps[2].outcome)
            && (steps[2].outcome.Ok? && !steps[2].outcome.value.Number? ==> r == Err("Invalid operands for number operation"))
            && (steps[2].outcome.Ok? && steps[2].outcome.value.Number? ==>
                  var n := steps[2].outcome.value.n;
                  (0 <= n < |a.elements| ==> r == Ok(v) && a.elements[n] == v)
                  && (!(0 <= n < |a.elements|) ==> r == Err(IndexMessage))))
    }

    /** A named type must have a prototype; the new object has its methods, and the fields in order. */
    ghost predicate ObjectConstructionRule(typeName: Option<string>, fields: seq<A.Field>, r: Outcome<Value>, steps: seq<Step>)
      reads *
    {
      if typeName.Some? && typeName.value !in prototypes then
        steps == [] && r == Err("Type " + typeName.value + " not defined")
      else
        Sequenced(steps, FieldValues(fields), r)
        && (Done(steps) ==>
              r.Ok? && r.value.ObjectV?
              && r.value.obj.fields == Bindings(FieldNames(fields), Values(steps))
              && r.value.obj.methods == if typeName.Some? then prototypes[typeName.value].methods else map[])
    }

    /** The elements in order; the new array holds their values. */
    ghost predicate ArrayConstructionRule(elements: seq<A.Expression>, r: Outcome<Value>, steps: seq<Step>)
      reads *
    {
      Sequenced(steps, elements, r)
      && (Done(steps) ==> r.Ok? && r.value.ArrayV? && r.value.arr.elements == Values(steps))
    }

    /** `evaluate_expression`. */
    method Evaluate(e: A.Expression) returns (r: Outcome<Value>, ghost steps: seq<Step>)
      requires Valid()
      modifies this, objects, arrays, env.Scope()
      ensures Evolved() && Within(r) && Rule(e, r, steps)
      ensures Meets(r, FateOf(prototypes.Keys, e)) && Fated(prototypes.Keys, steps)
      ensures !Writes(e) ==> Kept()
      decreases e, 6
    {
      match e
      case Call(_, _) => r, steps := EvaluateCall(e);
      case Binary(_, _, _) => r, steps := EvaluateBinary(e);
      case Unary(_, _) => r, steps := EvaluateUnary(e);
      case MethodAccess(_, _, _) => r, steps := EvaluateMethodAccess(e);
      case FieldAccess(_, _) => r, steps := EvaluateFieldAccess(e);
      case ArrayAccess(_, _) => r, steps := EvaluateArrayAccess(e);
      case Assignment(_, _) => r, steps := EvaluateAssignment(e);
      case ObjectConstruction(_, _) => r, steps := EvaluateObjectConstruction(e);
      case ArrayConstruction(_) => r, steps := EvaluateArrayConstruction(e);
      case _ => r, steps := Panic(TodoMessage), [];
    }

    /** Evaluates a sub-expression for the value it gives. */
    method Operand(e: A.Expression) returns (r: Outcome<Value>)
      requires Valid()
      modifies this, objects, arrays, env.Scope()
      ensures Evolved() && Within(r) && Meets(r, FateOf(prototypes.Keys, e))
      ensures Unimplemented(Leading(prototypes.Keys, e)) ==> r == Panic(TodoMessage)
      ensures !Writes(e) ==> Kept()
      decreases e, 7
    {
      ghost var steps;
      r, steps := Evaluate(e);
      UnimplementedFirst(prototypes.Keys, e);
    }

    /** Evaluates an argument or element list left to right, stopping at the first outcome that is not Ok. */
    method EvaluateAll(ghost whole: A.Expression, es: seq<A.Expression>) returns (r: Outcome<seq<Value>>, ghost steps: seq<Step>)
      requires Valid() && es == Operands(whole)
      modifies this, objects, arrays, env.Scope()
      ensures Evolved() && Covered(steps, es) && (r.Ok? <==> Done(steps))
      ensures r.Ok? ==> r.value == Values(steps) && AllInside(r.value, objects, arrays)
      ensures !r.Ok? ==> Stop(r) == steps[|steps| - 1].outcome && Within(Stop(r))
      ensures Fated(prototypes.Keys, steps) && Ran(steps, RunFrom(prototypes.Keys, whole, es, 0))
      ensures !WritesAny(es) ==> Kept()
      decreases whole, 0
    {
      ghost var T := prototypes.Keys;
      var vals: seq<Value> := [];
      steps := [];
      var i := 0;
      while i < |es|
        invariant 0 <= i <= |es| && |steps| == i && Prefix(steps, es) && AllOk(steps)
        invariant vals == Values(steps) && AllInside(vals, objects, arrays)
        invariant Evolved() && (!WritesAny(es) ==> Kept())
        invariant Following(T, whole, es, i, steps)
      {
        var x;
        x := Operand(es[i]);
        Append(steps, Step(es[i], x), es);
        Follow(T, whole, es, steps, x);
        steps := steps + [Step(es[i], x)];
        if !x.Ok? {
          return Stop(x), steps;
        }
        vals := vals + [x.value];
        i := i + 1;
      }
      FollowedAll(T, whole, es, steps);
      r := Ok(vals);
    }

    method EvaluateCall(e: A.Expression) returns (r: Outcome<Value>, ghost steps: seq<Step>)
      requires e.Call? && Valid()
      modifies this, objects, arrays, env.Scope()
      ensures Evolved() && Within(r) && CallRule(e.callee, e.arguments, r, steps)
      ensures Meets(r, FateOf(prototypes.Keys, e)) && Fated(prototypes.Keys, steps)
      ensures !Writes(e) ==> Kept()
      decreases e, 3
    {
      var f;
      f := Operand(e.callee);
      r, steps := CallWith(e, f);
    }

    /** Once the callee is evaluated: the arguments, then the call of the callee's value. */
    method CallWith(e: A.Expression, f: Outcome<Value>) returns (r: Outcome<Value>, ghost steps: seq<Step>)
      requires e.Call? && Valid() && Within(f)
      modifies this, objects, arrays, env.Scope()
      ensures Evolved() && Within(r) && CallRule(e.callee, e.arguments, r, steps)
      ensures steps[0] == Step(e.callee, f)
      ensures Meets(f, FateOf(prototypes.Keys, e.callee)) ==>
        Meets(r, FateOf(prototypes.Keys, e)) && Fated(prototypes.Keys, steps)
      ensures !WritesAny(e.arguments) ==> Kept()
      decreases e, 2
    {
      if !f.Ok? {
        return f, [Step(e.callee, f)];
      }
      ghost var rest;
      r, rest := Apply(e, e.arguments, f.value);
      Prepend(Step(e.callee, f), rest, e.callee, e.arguments);
      steps := [Step(e.callee, f)] + rest;
      if Meets(f, FateOf(prototypes.Keys, e.callee)) {
        Called(prototypes.Keys, e, f, rest, r);
      }
    }

    /** Evaluates a call's arguments and calls the callee's value on them. */
    method Apply(ghost whole: A.Expression, arguments: seq<A.Expression>, f: Value) returns (r: Outcome<Value>, ghost steps: seq<Step>)
      requires whole.Call? && arguments == whole.arguments && Valid() && Inside(f, objects, arrays)
      modifies this, objects, arrays, env.Scope()
      ensures Evolved() && Within(r) && Covered(steps, arguments)
      ensures !Done(steps) ==> r == steps[|steps| - 1].outcome
      ensures Done(steps) ==> r == Dispatch(f, Values(steps))
      ensures Fated(prototypes.Keys, steps) && Ran(steps, RunFrom(prototypes.Keys, whole, arguments, 0))
      ensures Meets(r, Calling(KindOf(f), RunFrom(prototypes.Keys, whole, arguments, 0)))
      ensures !WritesAny(arguments) ==> Kept()
      decreases whole, 1
    {
      var args;
      args, steps := EvaluateAll(whole, arguments);
      if !args.Ok? {
        r := Stop(args);
        Dispatched(f, RunFrom(prototypes.Keys, whole, arguments, 0), steps, r);
        return;
      }
      match f {
        case MethodV(m) =>
          ghost var frame;
          r, frame := CallMethod(m, args.value);
        case NativeMethodV(n) =>
          r := host(n.code, args.value);
        case _ =>
          r := Err("Can only call methods on objects");
      }
      Dispatched(f, RunFrom(prototypes.Keys, whole, arguments, 0), steps, r);
    }

    method EvaluateBinary(e: A.Expression) returns (r: Outcome<Value>, ghost steps: seq<Step>)
      requires e.Binary? && Valid()
      modifies this, objects, arrays, env.Scope()
      ensures Evolved() && Within(r) && BinaryRule(e.left, e.op, e.right, r, steps)
      ensures Meets(r, FateOf(prototypes.Keys, e)) && Fated(prototypes.Keys, steps)
      ensures !Writes(e) ==> Kept()
      decreases e, 1
    {
      var left;
      left := Operand(e.left);
      Append([], Step(e.left, left), [e.left, e.right]);
      steps := [] + [Step(e.left, left)];
      if !left.Ok? {
        return left, steps;
      }
      var right;
      right := Operand(e.right);
      Append(steps, Step(e.right, right), [e.left, e.right]);
      steps := steps + [Step(e.right, right)];
      if !right.Ok? {
        return right, steps;
      }
      r := ApplyBinary(e.op, left.value, right.value, depth);
      BinaryWithin(e.op, left.value, right.value);
      OperatorFateSound(e.op, left.value, right.value, depth);
    }

    /** Operators build only numbers, strings and booleans, or return an operand. */
    lemma BinaryWithin(op: A.BinaryOp, l: Value, r: Value)
      ensures OutcomeInside(ApplyBinary(op, l, r, depth), {}, {})
    {
      match op
      case Equal =>
      case NotEqual =>
      case And =>
      case Or =>
      case _ =>
    }

    method EvaluateUnary(e: A.Expression) returns (r: Outcome<Value>, ghost steps: seq<Step>)
      requires e.Unary? && Valid()
      modifies this, objects, arrays, env.Scope()
      ensures Evolved() && Within(r) && UnaryRule(e.uop, e.operand, r, steps)
      ensures Meets(r, FateOf(prototypes.Keys, e)) && Fated(prototypes.Keys, steps)
      ensures !Writes(e) ==> Kept()
      decreases e, 1
    {
      var operand;
      operand := Operand(e.operand);
      Append([], Step(e.operand, operand), [e.operand]);
      steps := [] + [Step(e.operand, operand)];
      if !operand.Ok? {
        return operand, steps;
      }
      r := ApplyUnary(e.uop, operand.value);
      UnaryFateSound(e.uop, operand.value);
    }

    method EvaluateMethodAccess(e: A.Expression) returns (r: Outcome<Value>, ghost steps: seq<Step>)
      requires e.MethodAccess? && Valid()
      modifies this, objects, arrays, env.Scope()
      ensures Evolved() && Within(r) && MethodAccessRule(e.receiver, e.member, e.arguments, r, steps)
      ensures Meets(r, FateOf(prototypes.Keys, e)) && Fated(prototypes.Keys, steps)
      ensures !Writes(e) ==> Kept()
      decreases e, 3
    {
      var target;
      target := Operand(e.receiver);
      r, steps := CallMember(e, target);
    }

    /** Once the receiver is evaluated: it must be an object holding the method before the arguments are evaluated. */
    method CallMember(e: A.Expression, target: Outcome<Value>) returns (r: Outcome<Value>, ghost steps: seq<Step>)
      requires e.MethodAccess? && Valid() && Within(target)
      modifies this, objects, arrays, env.Scope()
      ensures Evolved() && Within(r) && MethodAccessRule(e.receiver, e.member, e.arguments, r, steps)
      ensures steps[0] == Step(e.receiver, target)
      ensures Meets(target, FateOf(prototypes.Keys, e.receiver)) ==>
        Meets(r, FateOf(prototypes.Keys, e)) && Fated(prototypes.Keys, steps)
      ensures !WritesAny(e.arguments) ==> Kept()
      decreases e, 2
    {
      steps := [Step(e.receiver, target)];
      if !target.Ok? {
        return target, steps;
      }
      var o := AsObject(target.value);
      if !o.Ok? {
        return Stop(o), steps;
      }
      var m := o.value.GetMethod(e.member);
      if !m.Ok? {
        return Stop(m), steps;
      }
      label Found:
      ghost var rest;
      r, rest := Invoke(e, e.arguments, m.value);
      Prepend(Step(e.receiver, target), rest, e.receiver, e.arguments);
      steps := [Step(e.receiver, target)] + rest;
      if Meets(target, FateOf(prototypes.Keys, e.receiver)) {
        MemberCalled(prototypes.Keys, e, target, rest, r);
      }
      assert o.value in old@Found(objects);
      assert o.value.methods == old@Found(o.value.methods);
    }

    /** Evaluates a method access's arguments and calls the method found on the receiver. */
    method Invoke(ghost whole: A.Expression, arguments: seq<A.Expression>, m: Method) returns (r: Outcome<Value>, ghost steps: seq<Step>)
      requires whole.MethodAccess? && arguments == whole.arguments && Valid()
      modifies this, objects, arrays, env.Scope()
      ensures Evolved() && Within(r) && Covered(steps, whole.arguments)
      ensures !Done(steps) ==> r == steps[|steps| - 1].outcome
      ensures Done(steps) ==> r == CallOutcome(m.declaration, |whole.arguments|)
      ensures Fated(prototypes.Keys, steps) && Ran(steps, RunFrom(prototypes.Keys, whole, arguments, 0))
      ensures !WritesAny(arguments) ==> Kept()
      decreases whole, 1
    {
      var args;
      args, steps := EvaluateAll(whole, arguments);
      if !args.Ok? {
        return Stop(args), steps;
      }
      ghost var frame;
      r, frame := CallMethod(m, args.value);
    }

    method EvaluateFieldAccess(e: A.Expression) returns (r: Outcome<Value>, ghost steps: seq<Step>)
      requires e.FieldAccess? && Valid()
      modifies this, objects, arrays, env.Scope()
      ensures Evolved() && Within(r) && FieldAccessRule(e.receiver, e.member, r, steps)
      ensures Meets(r, FateOf(prototypes.Keys, e)) && Fated(prototypes.Keys, steps)
      ensures !Writes(e) ==> Kept()
      decreases e, 1
    {
      var target;
      target := Operand(e.receiver);
      Append([], Step(e.receiver, target), [e.receiver]);
      steps := [] + [Step(e.receiver, target)];
      if !target.Ok? {
        return target, steps;
      }
      var o := AsObject(target.value);
      if !o.Ok? {
        return Stop(o), steps;
      }
      r := o.value.GetValue(e.member);
    }

    method EvaluateArrayAccess(e: A.Expression) returns (r: Outcome<Value>, ghost steps: seq<Step>)
      requires e.ArrayAccess? && Valid()
      modifies this, objects, arrays, env.Scope()
      ensures Evolved() && Within(r) && ArrayAccessRule(e.indexed, e.index, r, steps)
      ensures Meets(r, FateOf(prototypes.Keys, e)) && Fated(prototypes.Keys, steps)
      ensures !Writes(e) ==> Kept()
      decreases e, 1
    {
      var target;
      target := Operand(e.indexed);
      steps := [Step(e.indexed, target)];
      if !target.Ok? {
        return target, steps;
      }
      var a := AsArray(target.value);
      if !a.Ok? {
        return Stop(a), steps;
      }
      var index;
      index := Operand(e.index);
      steps := steps + [Step(e.index, index)];
      if !index.Ok? {
        return index, steps;
      }
      var n := AsNumber(index.value);
      if !n.Ok? {
        return Stop(n), steps;
      }
      r := a.value.GetValue(n.value);
    }

    method EvaluateAssignment(e: A.Expression) returns (r: Outcome<Value>, ghost steps: seq<Step>)
      requires e.Assignment? && Valid()
      modifies this, objects, arrays, env.Scope()
      ensures Evolved() && Within(r) && AssignmentRule(e.target, e.value, r, steps)
      ensures Meets(r, FateOf(prototypes.Keys, e)) && Fated(prototypes.Keys, steps)
      ensures !Writes(e.value) && !TargetWrites(e.target) ==>
        (steps[0].outcome.Ok? ==> Stored(e.target, steps[0].outcome.value, steps))
        && (!steps[0].outcome.Ok? ==> Kept())
      decreases e, 5
    {
      var v;
      v := Operand(e.value);
      steps := [Step(e.value, v)];
      if !v.Ok? {
        r := v;
      } else {
        r, steps := Store(e, v.value, steps);
        Assigned(prototypes.Keys, e, steps, r);
      }
    }

    /** The store an assignment makes once its value is Ok, chosen by the form of its target. */
    method Store(e: A.Expression, v: Value, ghost before: seq<Step>) returns (r: Outcome<Value>, ghost steps: seq<Step>)
      requires e.Assignment? && Valid() && Inside(v, objects, arrays) && before == [Step(e.value, Ok(v))]
      modifies this, objects, arrays, env.Scope()
      ensures Evolved() && Within(r) && AssignmentRule(e.target, e.value, r, steps) && steps[0] == before[0]
      ensures Meets(r, Storing(prototypes.Keys, e.target, KindOf(v))) && Fated(prototypes.Keys, steps[1..])
      ensures !TargetWrites(e.target) ==> Stored(e.target, v, steps)
      decreases e, 4
    {
      if e.target.Identifier? {
        r, steps := StoreIntoVariable(e, v, before);
      } else {
        r, steps := StoreThrough(e, v, before);
      }
    }

    /** The store into a variable: the nearest frame that binds the name takes the value. */
    method StoreIntoVariable(e: A.Expression, v: Value, ghost before: seq<Step>) returns (r: Outcome<Value>, ghost steps: seq<Step>)
      requires e.Assignment? && e.target.Identifier? && Valid() && Inside(v, objects, arrays)
      requires before == [Step(e.value, Ok(v))]
      modifies this, objects, arrays, env.Scope()
      ensures Evolved() && Within(r) && AssignmentRule(e.target, e.value, r, steps) && steps[0] == before[0]
      ensures Meets(r, Storing(prototypes.Keys, e.target, KindOf(v))) && Fated(prototypes.Keys, steps[1..])
      ensures !TargetWrites(e.target) ==> Stored(e.target, v, steps)
      decreases e, 3
    {
      r := AssignVariable(e.target.name, v);
      steps := before;
      assert steps[1..] == [];
    }

    /** The store into a field or an element, or the error for a target that is neither. */
    method StoreThrough(e: A.Expression, v: Value, ghost before: seq<Step>) returns (r: Outcome<Value>, ghost steps: seq<Step>)
      requires e.Assignment? && !e.target.Identifier?
      requires Valid() && Inside(v, objects, arrays) && before == [Step(e.value, Ok(v))]
      modifies this, objects, arrays, env.Scope()
      ensures Evolved() && Within(r) && AssignmentRule(e.target, e.value, r, steps) && steps[0] == before[0]
      ensures Meets(r, Storing(prototypes.Keys, e.target, KindOf(v))) && Fated(prototypes.Keys, steps[1..])
      ensures !TargetWrites(e.target) ==> Stored(e.target, v, steps)
      decreases e, 3
    {
      steps := before;
      if e.target.FieldAccess? {
        r, steps := AssignField(e, e.target.receiver, e.target.member, v, steps);
      } else if e.target.ArrayAccess? {
        r, steps := AssignElement(e, e.target.indexed, e.target.index, v, steps);
      } else {
        r := Err("Invalid assignment target");
      }
    }

    /** Overwrites a variable in the innermost frame that binds it; no other binding, field or element changes. */
    method AssignVariable(name: string, v: Value) returns (r: Outcome<Value>)
      requires Valid()
      modifies env.Scope()
      ensures Evolved() && unchanged(objects) && unchanged(arrays)
      ensures FirstHolder(KeysOf(env.Scope()), name).None? ==> r == Panic("Variable " + name + " not defined")
      ensures FirstHolder(KeysOf(env.Scope()), name).Some? ==>
        r == Ok(v) && FirstHolder(KeysOf(env.Scope()), name).value < |env.Scope()|
        && env.Scope()[FirstHolder(KeysOf(env.Scope()), name).value].values[name] == v
      ensures old(env).Rebound(name, v)
    {
      var s := env.Assign(name, v);
      r := if s.Ok? then Ok(v) else Stop(s);
    }

    /** Stores into a field after evaluating the receiver. */
    method AssignField(ghost whole: A.Expression, receiver: A.Expression, member: string, v: Value, ghost before: seq<Step>)
      returns (r: Outcome<Value>, ghost steps: seq<Step>)
      requires whole.Assignment? && whole.target == A.FieldAccess(receiver, member)
      requires Valid() && Inside(v, objects, arrays) && |before| == 1 && before[0].outcome == Ok(v)
      modifies this, objects, arrays, env.Scope()
      ensures Evolved() && Within(r) && |steps| == 2 && steps[0] == before[0] && steps[1].expr == receiver
      ensures !steps[1].outcome.Ok? ==> r == steps[1].outcome
      ensures steps[1].outcome.Ok? && !steps[1].outcome.value.ObjectV? ==> r == Err("Invalid operands for object operation")
      ensures steps[1].outcome.Ok? && steps[1].outcome.value.ObjectV? ==>
        r == Ok(v) && steps[1].outcome.value.obj.GetValue(member) == Ok(v)
      ensures Meets(r, Receiving(FateOf(prototypes.Keys, receiver), Makes(KindOf(v)))) && Fated(prototypes.Keys, steps[1..])
      ensures !Writes(receiver) ==> Stored(whole.target, v, steps)
      decreases whole, 0
    {
      var target;
      target := Operand(receiver);
      steps := before + [Step(receiver, target)];
      r := StoreIntoObject(whole, target, member, v, steps);
      FieldAssigned(prototypes.Keys, receiver, target, v, r);
      assert steps[1..] == [Step(receiver, target)];
    }

    /** Once the receiver is evaluated: it must be an object, which takes the value under `member`. */
    method StoreIntoObject(ghost whole: A.Expression, target: Outcome<Value>, member: string, v: Value, ghost steps: seq<Step>)
      returns (r: Outcome<Value>)
      requires whole.Assignment? && whole.target.FieldAccess? && whole.target.member == member
      requires Valid() && Inside(v, objects, arrays) && Within(target)
      requires |steps| == 2 && steps[1].outcome == target
      modifies objects
      ensures Valid() && Within(r) && forall o :: o in objects ==> o.methods == old(o.methods)
      ensures !target.Ok? ==> r == target
      ensures target.Ok? && !target.value.ObjectV? ==> r == Err("Invalid operands for object operation")
      ensures target.Ok? && target.value.ObjectV? ==> r == Ok(v) && target.value.obj.GetValue(member) == Ok(v)
      ensures Stored(whole.target, v, steps)
    {
      if !target.Ok? {
        return target;
      }
      var o := AsObject(target.value);
      if !o.Ok? {
        return Stop(o);
      }
      PutField(o.value, member, v);
      r := Ok(v);
    }

    /** A reachable object takes a reachable value under `member`; the heap stays closed. */
    method PutField(o: Object, member: string, v: Value)
      requires Valid() && o in objects && Inside(v, objects, arrays)
      modifies o
      ensures Valid() && o.GetValue(member) == Ok(v) && o.methods == old(o.methods)
      ensures o.fields == old(o.fields)[member := v]
    {
      var _ := o.SetValue(member, v);
    }

    /** Stores into an element after evaluating the array and the index. */
    method AssignElement(ghost whole: A.Expression, indexed: A.Expression, index: A.Expression, v: Value, ghost before: seq<Step>)
      returns (r: Outcome<Value>, ghost steps: seq<Step>)
      requires whole.Assignment? && whole.target == A.ArrayAccess(indexed, index)
      requires Valid() && Inside(v, objects, arrays) && |before| == 1 && before[0].outcome == Ok(v)
      modifies this, objects, arrays, env.Scope()
      ensures Evolved() && Within(r) && |steps| >= 1 && steps[0] == before[0]
      ensures Prefix(steps[1..], [indexed, index]) && ArrayStoreRule(v, r, steps)
      ensures Meets(r, Indexing(FateOf(prototypes.Keys, indexed), FateOf(prototypes.Keys, index))) && Fated(prototypes.Keys, steps[1..])
      ensures !Writes(indexed) && !Writes(index) ==> Stored(whole.target, v, steps)
      decreases whole, 2
    {
      var target;
      target := Operand(indexed);
      r, steps := StoreIntoArray(whole, index, target, v, before + [Step(indexed, target)]);
    }

    /** Once the array operand is evaluated: it must be an array before the index is evaluated. */
    method StoreIntoArray(ghost whole: A.Expression, index: A.Expression, target: Outcome<Value>, v: Value, ghost before: seq<Step>)
      returns (r: Outcome<Value>, ghost steps: seq<Step>)
      requires whole.Assignment? && whole.target.ArrayAccess? && whole.target.index == index
      requires Valid() && Inside(v, objects, arrays) && Within(target)
      requires |before| == 2 && before[0].outcome == Ok(v) && before[1] == Step(whole.target.indexed, target)
      modifies this, objects, arrays, env.Scope()
      ensures Evolved() && Within(r) && |steps| >= 2 && steps[..2] == before
      ensures Prefix(steps[1..], [before[1].expr, index]) && ArrayStoreRule(v, r, steps)
      ensures Meets(target, FateOf(prototypes.Keys, whole.target.indexed)) ==>
        Meets(r, Indexing(FateOf(prototypes.Keys, whole.target.indexed), FateOf(prototypes.Keys, index)))
        && Fated(prototypes.Keys, steps[1..])
      ensures !Writes(index) ==> Stored(whole.target, v, steps)
      decreases whole, 1
    {
      steps := before;
      if !target.Ok? {
        return target, steps;
      }
      var a := AsArray(target.value);
      if !a.Ok? {
        return Stop(a), steps;
      }
      r, steps := StoreElement(whole, index, a.value, v, steps);
      if Meets(target, FateOf(prototypes.Keys, whole.target.indexed)) {
        FatedJoin(prototypes.Keys, [before[1]], [steps[2]]);
        assert steps[1..] == [before[1]] + [steps[2]];
      }
    }

    /** The index of an element assignment, once the array is known, and the store into the array. */
    method StoreElement(ghost whole: A.Expression, index: A.Expression, a: Array, v: Value, ghost before: seq<Step>)
      returns (r: Outcome<Value>, ghost steps: seq<Step>)
      requires whole.Assignment? && whole.target.ArrayAccess? && whole.target.index == index
      requires Valid() && Inside(v, objects, arrays) && a in arrays
      requires |before| == 2 && before[1].outcome == Ok(ArrayV(a))
      modifies this, objects, arrays, env.Scope()
      ensures Evolved() && Within(r) && |steps| == |before| + 1 && steps[..|before|] == before && steps[|before|].expr == index
      ensures Meets(steps[|before|].outcome, FateOf(prototypes.Keys, index))
      ensures var last := steps[|before|].outcome;
        (!last.Ok? ==> r == last)
        && (last.Ok? && !last.value.Number? ==> r == Err("Invalid operands for number operation"))
        && (last.Ok? && last.value.Number? ==>
              (0 <= last.value.n < |a.elements| ==> r == Ok(v) && a.elements[last.value.n] == v)
              && (!(0 <= last.value.n < |a.elements|) ==> r == Err(IndexMessage)))
      ensures !Writes(index) ==> Stored(whole.target, v, steps)
      decreases whole, 0
    {
      var i;
      i := Operand(index);
      steps := before + [Step(index, i)];
      r := WriteElement(whole, a, i, v, steps);
    }

    /** Once the index is evaluated: it must be a number in range, where the array takes the value. */
    method WriteElement(ghost whole: A.Expression, a: Array, i: Outcome<Value>, v: Value, ghost steps: seq<Step>)
      returns (r: Outcome<Value>)
      requires whole.Assignment? && whole.target.ArrayAccess?
      requires Valid() && Inside(v, objects, arrays) && a in arrays && Within(i)
      requires |steps| == 3 && steps[1].outcome == Ok(ArrayV(a)) && steps[2].outcome == i
      modifies a
      ensures Valid() && Within(r)
      ensures !i.Ok? ==> r == i
      ensures i.Ok? && !i.value.Number? ==> r == Err("Invalid operands for number operation")
      ensures i.Ok? && i.value.Number? ==>
        (0 <= i.value.n < |a.elements| ==> r == Ok(v) && a.elements[i.value.n] == v)
        && (!(0 <= i.value.n < |a.elements|) ==> r == Err(IndexMessage))
      ensures Stored(whole.target, v, steps)
    {
      if !i.Ok? {
        return i;
      }
      var n := AsNumber(i.value);
      if !n.Ok? {
        return Stop(n);
      }
      var stored := a.SetValue(n.value, v);
      r := if stored.Ok? then Ok(v) else stored;
    }

    method EvaluateObjectConstruction(e: A.Expression) returns (r: Outcome<Value>, ghost steps: seq<Step>)
      requires e.ObjectConstruction? && Valid()
      modifies this, objects, arrays, env.Scope()
      ensures Evolved() && Within(r) && ObjectConstructionRule(e.typeName, e.fields, r, steps)
      ensures Meets(r, FateOf(prototypes.Keys, e)) && Fated(prototypes.Keys, steps)
      ensures !Writes(e) ==> Kept()
      ensures r.Ok? ==> fresh(r.value.obj)
      decreases e, 4
    {
      if e.typeName.Some? && e.typeName.value !in prototypes {
        r, steps := Err("Type " + e.typeName.value + " not defined"), [];
      } else {
        r, steps := Construct(e);
      }
    }

    /** A known type or an anonymous literal: the blank object, its fields, and the object recorded as reachable. */
    method Construct(e: A.Expression) returns (r: Outcome<Value>, ghost steps: seq<Step>)
      requires e.ObjectConstruction? && Valid() && (e.typeName.Some? ==> e.typeName.value in prototypes)
      modifies this, objects, arrays, env.Scope()
      ensures Evolved() && Within(r) && Sequenced(steps, FieldValues(e.fields), r)
      ensures Done(steps) ==>
        r.Ok? && r.value.ObjectV? && fresh(r.value.obj)
        && r.value.obj.fields == Bindings(FieldNames(e.fields), Values(steps))
        && r.value.obj.methods == if e.typeName.Some? then prototypes[e.typeName.value].methods else map[]
      ensures r.Ok? ==> Done(steps)
      ensures Meets(r, FateOf(prototypes.Keys, e)) && Fated(prototypes.Keys, steps)
      ensures !Writes(e) ==> Kept()
      decreases e, 3
    {
      var o := Blank(e.typeName);
      r, steps := Populate(e, o);
    }

    /** The fields of a blank object in order, then the object recorded as reachable. */
    method Populate(whole: A.Expression, o: Object) returns (r: Outcome<Value>, ghost steps: seq<Step>)
      requires whole.ObjectConstruction? && Valid()
      requires o !in objects && ObjectContained(o, objects, arrays) && o.fields == map[]
      modifies this, objects, arrays, env.Scope(), o
      ensures EvolvedWith(o) && Within(r) && Sequenced(steps, FieldValues(whole.fields), r)
      ensures Done(steps) ==>
        r == Ok(ObjectV(o)) && o.fields == Bindings(FieldNames(whole.fields), Values(steps)) && o.methods == old(o.methods)
      ensures r.Ok? ==> Done(steps)
      ensures Fated(prototypes.Keys, steps) && Ran(steps, RunFrom(prototypes.Keys, whole, FieldValues(whole.fields), 0))
      ensures !Writes(whole) ==> Kept()
      decreases whole, 2
    {
      r, steps := FillFields(whole, whole.fields, o);
      if r.Ok? {
        Adopt(o);
        r := Ok(ObjectV(o));
      }
    }

    /** Records a new object, whose contents are already reachable, among the reachable ones. */
    method Adopt(o: Object)
      requires Valid() && o !in objects && ObjectContained(o, objects, arrays)
      modifies this
      ensures objects == old(objects) + {o} && arrays == old(arrays) && Valid()
      ensures env == old(env) && prototypes == old(prototypes)
    {
      ClosedWithObject(objects, arrays, o);
      objects := objects + {o};
    }

    /** `instantiate` of the named prototype, or a fresh empty object for an anonymous literal. */
    method Blank(typeName: Option<string>) returns (o: Object)
      requires Valid() && (typeName.Some? ==> typeName.value in prototypes)
      ensures fresh(o) && o.fields == map[] && ObjectContained(o, objects, arrays)
      ensures o.methods == if typeName.Some? then prototypes[typeName.value].methods else map[]
      ensures Kept()
    {
      if typeName.Some? {
        o := prototypes[typeName.value].Instantiate();
      } else {
        o := new Object();
      }
    }

    /** Evaluates an object construction's fields in order and stores each into the new object. */
    method FillFields(ghost whole: A.Expression, fields: seq<A.Field>, o: Object) returns (r: Outcome<Value>, ghost steps: seq<Step>)
      requires whole.ObjectConstruction? && fields == whole.fields && Valid()
      requires o !in objects && ObjectContained(o, objects, arrays) && o.fields == map[]
      modifies this, objects, arrays, env.Scope(), o
      ensures Evolved() && o !in objects && ObjectContained(o, objects, arrays) && o.methods == old(o.methods)
      ensures Covered(steps, FieldValues(fields)) && (r.Ok? <==> Done(steps)) && Within(r)
      ensures !Done(steps) ==> r == steps[|steps| - 1].outcome
      ensures Done(steps) ==> o.fields == Bindings(FieldNames(fields), Values(steps))
      ensures Fated(prototypes.Keys, steps) && Ran(steps, RunFrom(prototypes.Keys, whole, FieldValues(fields), 0))
      ensures !Writes(whole) ==> Kept()
      decreases whole, 1
    {
      ghost var T := prototypes.Keys;
      ghost var es := FieldValues(fields);
      ghost var names := FieldNames(fields);
      steps := [];
      var i := 0;
      while i < |fields|
        invariant 0 <= i <= |fields| && |steps| == i && Prefix(steps, es) && AllOk(steps)
        invariant Evolved() && o !in objects && ObjectContained(o, objects, arrays) && o.methods == old(o.methods)
        invariant o.fields == Bindings(names[..i], Values(steps))
        invariant !Writes(whole) ==> Kept()
        invariant Following(T, whole, es, i, steps)
      {
        ghost var prior := Values(steps);
        var v := FillField(whole, fields[i], o);
        assert es[i] == fields[i].value;
        Append(steps, Step(es[i], v), es);
        Follow(T, whole, es, steps, v);
        steps := steps + [Step(es[i], v)];
        if !v.Ok? {
          return v, steps;
        }
        BindingsExtend(names, prior, i, v.value);
        i := i + 1;
      }
      assert names[..i] == names;
      FollowedAll(T, whole, es, steps);
      r := Ok(Null);
    }

    /** One turn of the field loop: the value, stored under the field's name when it is Ok. */
    method FillField(ghost whole: A.Expression, field: A.Field, o: Object) returns (v: Outcome<Value>)
      requires whole.ObjectConstruction? && field in whole.fields && Valid()
      requires o !in objects && ObjectContained(o, objects, arrays)
      modifies this, objects, arrays, env.Scope(), o
      ensures Evolved() && o !in objects && ObjectContained(o, objects, arrays) && o.methods == old(o.methods)
      ensures Within(v)
      ensures o.fields == if v.Ok? then old(o.fields)[field.name := v.value] else old(o.fields)
      ensures Meets(v, FateOf(prototypes.Keys, field.value))
      ensures !Writes(whole) ==> Kept()
      decreases whole, 0
    {
      v := Operand(field.value);
      if v.Ok? {
        var _ := o.SetValue(field.name, v.value);
      }
    }

    method EvaluateArrayConstruction(e: A.Expression) returns (r: Outcome<Value>, ghost steps: seq<Step>)
      requires e.ArrayConstruction? && Valid()
      modifies this, objects, arrays, env.Scope()
      ensures Evolved() && Within(r) && ArrayConstructionRule(e.elements, r, steps)
      ensures Meets(r, FateOf(prototypes.Keys, e)) && Fated(prototypes.Keys, steps)
      ensures !Writes(e) ==> Kept()
      ensures r.Ok? ==> fresh(r.value.arr)
      decreases e, 1
    {
      var elements;
      elements, steps := EvaluateAll(e, e.elements);
      if !elements.Ok? {
        return Stop(elements), steps;
      }
      var a := NewArray(elements.value);
      r := Ok(ArrayV(a));
    }

    /** A new array holding reachable values, recorded as reachable. */
    method NewArray(vals: seq<Value>) returns (a: Array)
      requires Valid() && AllInside(vals, objects, arrays)
      modifies this
      ensures fresh(a) && a.elements == vals && Kept()
      ensures objects == old(objects) && arrays == old(arrays) + {a} && Valid()
      ensures env == old(env) && prototypes == old(prototypes)
    {
      a := new Array(vals);
      ClosedWithArray(objects, arrays, a);
      arrays := arrays + {a};
    }

    /**
     * `Method::call`: the body runs in a new frame whose parent is the
     * caller's environment, holding `this` and then the parameters, and the
     * caller's environment is restored afterwards.
     */
    method CallMethod(m: Method, args: seq<Value>) returns (r: Outcome<Value>, ghost frame: Frame)
      requires Valid()
      modifies this
      ensures env == old(env) && prototypes == old(prototypes) && objects == old(objects) && arrays == old(arrays)
      ensures unchanged(objects) && unchanged(arrays) && FramesKept()
      ensures r == CallOutcome(m.declaration, |args|) && OutcomeInside(r, {}, {})
      ensures fresh(frame) && frame.parent == old(env)
      ensures r.Ok? ==> frame.values == Bindings(BoundNames(m.declaration.signature.params, |args|), CallValues(m.receiver, m.declaration.signature.params, args))
    {
      var parent := env;
      var callFrame, bound := Bind(m, args);
      frame := callFrame;
      if !bound.Ok? {
        return Stop(bound), callFrame;
      }
      env := callFrame;
      var ret := Interpret(m.declaration.body);
      env := parent;
      r := Finish(ret);
      CallOutcomePlain(m.declaration, |args|);
    }

    /** The new frame of a call, child of the caller's environment, holding `this` and then the parameters. */
    method Bind(m: Method, args: seq<Value>) returns (callFrame: Frame, bound: Outcome<()>)
      requires Valid()
      ensures fresh(callFrame) && callFrame.parent == env && FramesKept()
      ensures var names := BoundNames(m.declaration.signature.params, |args|);
        (FirstRepeatedFrom(names, 0).Some? ==> bound == Panic("Variable " + FirstRepeatedFrom(names, 0).value + " already defined"))
        && (FirstRepeatedFrom(names, 0).None? ==>
              bound == Ok(()) && callFrame.values == Bindings(names, CallValues(m.receiver, m.declaration.signature.params, args)))
    {
      callFrame := new Frame(env);
      var params := m.declaration.signature.params;
      bound := callFrame.DefineAll(BoundNames(params, |args|), CallValues(m.receiver, params, args));
    }
  }
}
