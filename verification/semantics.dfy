/**
 * The value-level rules of Ember's evaluator: operators, truthiness,
 * equality, indexing, argument counts and how `let` chooses between
 * updating and defining a variable.  The interpreter applies these rules
 * to the values it has evaluated.
 */
module Semantics {
  import opened Util
  import opened Errors
  import opened Environments
  import opened Values

  // ---------------------------------------------------------------
  // Numbers
  // ---------------------------------------------------------------

  /** The host's `int(x)`: truncation toward zero. */
  function Truncate(x: real): (i: int)
    ensures x >= 0.0 ==> 0 <= i && i as real <= x < i as real + 1.0
    ensures x < 0.0 ==> i <= 0 && i as real - 1.0 < x <= i as real
  {
    if x >= 0.0 then x.Floor else -((-x).Floor)
  }

  /** The host's `a % b` on floats: the remainder takes the sign of the divisor. */
  function FloorMod(a: real, b: real): (r: real)
    requires b != 0.0
  {
    a - b * ((a / b).Floor as real)
  }

  /**
   * The remainder lies between zero and the divisor, so it has the
   * divisor's sign, and it differs from `a` by a whole multiple of `b`.
   */
  lemma FloorModRange(a: real, b: real)
    requires b != 0.0
    ensures b > 0.0 ==> 0.0 <= FloorMod(a, b) < b
    ensures b < 0.0 ==> b < FloorMod(a, b) <= 0.0
    ensures IsIntegral((a - FloorMod(a, b)) / b)
  {
    var t := a / b;
    var q := t.Floor as real;
    var f := t - q;
    assert 0.0 <= f < 1.0;
    // the remainder is b times the fractional part of a / b
    assert FloorMod(a, b) == b * f by {
      Distribute(b, t, q);
      assert b * t == a;
    }
    assert (a - FloorMod(a, b)) / b == q;
    if b > 0.0 {
      ScaleKeepsOrder(b, 0.0, f);
      ScaleKeepsOrder(b, f, 1.0);
    } else {
      ScaleKeepsOrder(-b, 0.0, f);
      ScaleKeepsOrder(-b, f, 1.0);
    }
  }

  lemma Distribute(c: real, x: real, y: real)
    ensures c * (x - y) == c * x - c * y
  {
  }

  /** Multiplying by a positive factor keeps the order. */
  lemma ScaleKeepsOrder(c: real, x: real, y: real)
    requires c > 0.0 && x <= y
    ensures c * x <= c * y
    ensures x < y ==> c * x < c * y
  {
    assert c * y - c * x == c * (y - x);
  }

  /** Arithmetic and comparison on two numbers. */
  function NumericBinary(op: string, a: real, b: real, line: int, column: int): (r: Result<Value>)
    ensures op in {"+", "-", "*"} ==> r.Ok? && r.value.Number?
    ensures op in {"<", ">", "<=", ">="} ==> r.Ok? && r.value.Bool?
  {
    if op == "+" then Ok(Number(a + b))
    else if op == "-" then Ok(Number(a - b))
    else if op == "*" then Ok(Number(a * b))
    else if op == "/" then
      if b == 0.0 then Err(RuntimeError("Division by zero", line, column)) else Ok(Number(a / b))
    else if op == "%" then
      if b == 0.0 then Err(RuntimeError("Modulo by zero", line, column)) else Ok(Number(FloorMod(a, b)))
    else if op == "<" then Ok(Bool(a < b))
    else if op == ">" then Ok(Bool(a > b))
    else if op == "<=" then Ok(Bool(a <= b))
    else if op == ">=" then Ok(Bool(a >= b))
    else Err(RuntimeError("Unknown operator '" + op + "'", line, column))
  }

  /** `/` and `%` fail exactly on a zero divisor, each with its own message. */
  lemma DivisionRule(op: string, a: real, b: real, line: int, column: int)
    requires op == "/" || op == "%"
    ensures NumericBinary(op, a, b, line, column).Err? <==> b == 0.0
    ensures b == 0.0 ==> NumericBinary(op, a, b, line, column)
                         == Err(RuntimeError(if op == "/" then "Division by zero" else "Modulo by zero", line, column))
    ensures b != 0.0 && op == "/" ==> NumericBinary(op, a, b, line, column) == Ok(Number(a / b))
    ensures b != 0.0 && op == "%" ==> NumericBinary(op, a, b, line, column) == Ok(Number(FloorMod(a, b)))
  {
  }

  // ---------------------------------------------------------------
  // Operators on any values
  // ---------------------------------------------------------------

  /** The TypeError for operands an operator does not accept; its text names both values and their types. */
  function Mismatch(lists: Store, op: string, l: Value, r: Value, line: int, column: int): (o: Outcome<Value>)
    ensures !o.Done?
    ensures o.Raised? ==> o.error.kind == Type
  {
    match Render(lists, l, MAX_NESTING)
    case None => Undetermined
    case Some(a) =>
      match Render(lists, r, MAX_NESTING)
      case None => Undetermined
      case Some(b) =>
        Raised(TypeError("Cannot apply '" + op + "' to " + a + " (" + TypeName(l) + ") and "
                         + b + " (" + TypeName(r) + ")", line, column))
  }

  /** `==` (or, negated, `!=`) as a boolean value. */
  function Equality(lists: Store, l: Value, r: Value, negated: bool): (o: Outcome<Value>)
    ensures o.Done? ==> o.value.Bool?
  {
    match Equal(lists, l, r, MAX_NESTING)
    case None => Undetermined
    case Some(b) => Done(Bool(if negated then !b else b))
  }

  /** A binary operator other than `and`/`or`, applied to the values of both operands. */
  function Binary(lists: Store, op: string, l: Value, r: Value, line: int, column: int): (o: Outcome<Value>)
    ensures o.Done? ==> o.value.Bool? || o.value.Number? || o.value.Str?
  {
    if op == "==" then Equality(lists, l, r, false)
    else if op == "!=" then Equality(lists, l, r, true)
    else if op == "+" && l.Str? && r.Str? then Done(Str(l.s + r.s))
    else if l.Number? && r.Number? then FromResult(NumericBinary(op, l.n, r.n, line, column))
    else Mismatch(lists, op, l, r, line, column)
  }

  /** `!=` is the negation of `==`. */
  lemma NotEqualNegatesEqual(lists: Store, l: Value, r: Value, line: int, column: int)
    ensures Binary(lists, "==", l, r, line, column).Done? <==> Binary(lists, "!=", l, r, line, column).Done?
    ensures Binary(lists, "==", l, r, line, column).Done? ==>
              Binary(lists, "!=", l, r, line, column).value.b == !Binary(lists, "==", l, r, line, column).value.b
  {
  }

  /** nil equals nil and nothing else. */
  lemma NilEqualsOnlyNil(lists: Store, v: Value, line: int, column: int)
    ensures Binary(lists, "==", Value.Nil, v, line, column) == Done(Bool(v.Nil?))
    ensures Binary(lists, "==", v, Value.Nil, line, column) == Done(Bool(v.Nil?))
  {
  }

  /** `+` on two strings concatenates them. */
  lemma StringsConcatenate(lists: Store, a: string, b: string, line: int, column: int)
    ensures Binary(lists, "+", Str(a), Str(b), line, column) == Done(Str(a + b))
  {
  }

  /**
   * Arithmetic and comparison accept two numbers only (and `+` two
   * strings): any other pair of operands is a TypeError.
   */
  lemma OtherOperandsRejected(lists: Store, op: string, l: Value, r: Value, line: int, column: int)
    requires op != "==" && op != "!="
    requires !(l.Number? && r.Number?) && !(op == "+" && l.Str? && r.Str?)
    ensures !Binary(lists, op, l, r, line, column).Done?
    ensures Binary(lists, op, l, r, line, column).Raised? ==> Binary(lists, op, l, r, line, column).error.kind == Type
  {
  }

  /** Unary `-` and `not`. */
  function Unary(lists: Store, op: string, v: Value, line: int, column: int): (o: Outcome<Value>)
    ensures o.Done? ==> o.value.Bool? || o.value.Number?
  {
    if op == "-" then
      if v.Number? then Done(Number(-v.n))
      else
        match Render(lists, v, MAX_NESTING)
        case None => Undetermined
        case Some(text) =>
          Raised(TypeError("Cannot negate " + text + " (type " + HostTypeName(v) + ")", line, column))
    else if op == "not" then Done(Bool(!IsTruthy(v)))
    else Raised(RuntimeError("Unknown unary operator '" + op + "'", line, column))
  }

  /** `not v` is true exactly for nil and false; `-` negates numbers and rejects everything else. */
  lemma UnaryRules(lists: Store, v: Value, line: int, column: int)
    ensures Unary(lists, "not", v, line, column) == Done(Bool(v == Value.Nil || v == Bool(false)))
    ensures v.Number? ==> Unary(lists, "-", v, line, column) == Done(Number(-v.n))
    ensures !v.Number? ==> !Unary(lists, "-", v, line, column).Done?
  {
  }

  // ---------------------------------------------------------------
  // and / or
  // ---------------------------------------------------------------

  /** Whether the left operand of `and`/`or` settles the result, so the right one is not evaluated. */
  predicate Decides(op: string, left: Value) {
    if op == "and" then !IsTruthy(left) else IsTruthy(left)
  }

  /** The value of `left op right` for `and`/`or`: one of the operands, unconverted. */
  function Logical(op: string, left: Value, right: Value): (v: Value)
    ensures v == left || v == right
  {
    if Decides(op, left) then left else right
  }

  /** `and` is true exactly when both operands are, `or` when either is. */
  lemma LogicalTruth(left: Value, right: Value)
    ensures IsTruthy(Logical("and", left, right)) <==> IsTruthy(left) && IsTruthy(right)
    ensures IsTruthy(Logical("or", left, right)) <==> IsTruthy(left) || IsTruthy(right)
  {
  }

  /** Once the left operand decides, no right operand changes the result: skipping it is safe. */
  lemma ShortCircuitSound(op: string, left: Value, right: Value)
    requires Decides(op, left)
    ensures Logical(op, left, right) == left
    ensures !IsTruthy(left) ==> op != "or"
  {
  }

  // ---------------------------------------------------------------
  // Indexing
  // ---------------------------------------------------------------

  /** What is being indexed: the error texts name it. */
  datatype Indexed = ListItems | StringChars

  function Noun(k: Indexed): string {
    if k == ListItems then "list" else "string"
  }

  /**
   * The position an index value selects in a sequence of `length`
   * elements: a number, truncated toward zero, within range.
   */
  function CheckIndex(k: Indexed, index: Value, length: nat, line: int, column: int): (r: Result<nat>)
    ensures r.Ok? <==> index.Number? && 0 <= Truncate(index.n) < length
    ensures r.Ok? ==> r.value == Truncate(index.n)
    ensures !index.Number? ==> r.Err? && r.error.kind == Type
    ensures index.Number? && r.Err? ==> r.error.kind == Runtime
  {
    if !index.Number? then
      Err(TypeError((if k == ListItems then "List" else "String") + " index must be a number", line, column))
    else
      var i := Truncate(index.n);
      if i < 0 || i >= length then
        Err(RuntimeError("Index " + IntToString(i) + " out of range for " + Noun(k) + " of length "
                         + IntToString(length), line, column))
      else Ok(i)
  }

  /** A fraction just below zero truncates to 0, so it selects the first element. */
  lemma NegativeFractionSelectsFirst(k: Indexed, x: real, length: nat, line: int, column: int)
    requires -1.0 < x < 0.0 && length > 0
    ensures CheckIndex(k, Number(x), length, line, column) == Ok(0)
  {
  }

  /** The TypeError for indexing something that is neither a list nor a string. */
  function NotIndexable(lists: Store, obj: Value, typeName: string, line: int, column: int): (o: Outcome<Value>)
    ensures !o.Done?
  {
    match Render(lists, obj, MAX_NESTING)
    case None => Undetermined
    case Some(text) =>
      Raised(TypeError("Cannot index into " + text + " (type " + typeName + ")", line, column))
  }

  /** `obj[index]`: an element of a list, or a one-character string. */
  function ReadIndex(lists: Store, obj: Value, index: Value, line: int, column: int): (o: Outcome<Value>)
    ensures o.Done? ==> obj.List? || obj.Str?
    ensures o.Done? ==> index.Number? && 0 <= Truncate(index.n)
    ensures o.Done? && obj.List? ==> Truncate(index.n) < |Items(lists, obj.ref)| && o.value == Items(lists, obj.ref)[Truncate(index.n)]
    ensures o.Done? && obj.Str? ==> Truncate(index.n) < |obj.s| && o.value == Str([obj.s[Truncate(index.n)]])
  {
    if obj.List? then
      var i :- FromResult(CheckIndex(ListItems, index, |Items(lists, obj.ref)|, line, column));
      Done(Items(lists, obj.ref)[i])
    else if obj.Str? then
      var i :- FromResult(CheckIndex(StringChars, index, |obj.s|, line, column));
      Done(Str([obj.s[i]]))
    else NotIndexable(lists, obj, TypeName(obj), line, column)
  }

  /**
   * The position `obj[index] = v` stores at: only a list can be assigned
   * into, and the index is checked as for reading.
   */
  function StoreTarget(lists: Store, obj: Value, index: Value, line: int, column: int): (o: Outcome<nat>)
    ensures o.Done? ==> obj.List? && o.value < |Items(lists, obj.ref)|
    ensures obj.List? ==> o == FromResult(CheckIndex(ListItems, index, |Items(lists, obj.ref)|, line, column))
  {
    if obj.List? then FromResult(CheckIndex(ListItems, index, |Items(lists, obj.ref)|, line, column))
    else
      var failure := NotIndexable(lists, obj, HostTypeName(obj), line, column);
      if failure.Raised? then Raised(failure.error) else Undetermined
  }

  /** Reading and assigning agree on which positions exist. */
  lemma StoreTargetMatchesRead(lists: Store, obj: Value, index: Value, line: int, column: int)
    requires obj.List?
    ensures StoreTarget(lists, obj, index, line, column).Done? <==> ReadIndex(lists, obj, index, line, column).Done?
  {
  }

  // ---------------------------------------------------------------
  // Variables and calls
  // ---------------------------------------------------------------

  /** The error for reading a name no scope binds. */
  function UndefinedVariable(name: string, line: int, column: int): (e: EmberError)
    ensures e.kind == Runtime && e.line == line && e.column == column
  {
    RuntimeError("Undefined variable '" + name + "'", line, column)
  }

  /** The value of a variable, or the error for a name no scope binds. */
  function Variable(scopes: seq<map<string, Value>>, name: string, line: int, column: int): (o: Outcome<Value>)
    ensures o.Done? <==> Lookup(scopes, name).Some?
    ensures o.Done? ==> o.value == Lookup(scopes, name).value
    ensures !o.Done? ==> o == Raised(UndefinedVariable(name, line, column))
  {
    match Lookup(scopes, name)
    case Some(v) => Done(v)
    case None => Raised(UndefinedVariable(name, line, column))
  }


  /** The argument-count check of a call: `expected` -1 accepts any count. */
  function CheckArity(name: string, expected: int, got: nat, line: int, column: int): (r: Result<()>)
    ensures r.Ok? <==> expected == -1 || got == expected
    ensures r.Err? ==> r.error.kind == Runtime
  {
    if expected != -1 && got != expected then
      Err(RuntimeError(name + "() expects " + IntToString(expected) + " argument(s), got "
                       + IntToString(got), line, column))
    else Ok(())
  }

  /** The error for calling something that is not a function. */
  function CannotCall(lists: Store, callee: Value, line: int, column: int): (o: Outcome<Value>)
    ensures !o.Done?
    ensures o.Raised? ==> o.error.kind == Runtime
  {
    match Render(lists, callee, MAX_NESTING)
    case None => Undetermined
    case Some(text) =>
      Raised(RuntimeError("Cannot call " + text + " (type " + TypeName(callee) + ")", line, column))
  }

  // ---------------------------------------------------------------
  // let
  // ---------------------------------------------------------------

  /** `let name = v`: update the nearest binding if the name is visible, else define it locally. */
  function LetBinding<V>(scopes: seq<map<string, V>>, name: string, v: V): (r: seq<map<string, V>>)
    requires |scopes| > 0
    ensures |r| == |scopes|
  {
    if Lookup(scopes, name).Some? then Assign(scopes, name, v) else Bind(scopes, name, v)
  }

  /** After `let`, the name reads back as the new value, and no other name changes. */
  lemma LetReadsBack<V>(scopes: seq<map<string, V>>, name: string, v: V, other: string)
    requires |scopes| > 0
    ensures Lookup(LetBinding(scopes, name, v), name) == Some(v)
    ensures other != name ==> Lookup(LetBinding(scopes, name, v), other) == Lookup(scopes, other)
  {
    if Lookup(scopes, name).Some? {
      LookupAfterAssign(scopes, name, v);
      if other != name {
        LookupOtherAfterAssign(scopes, name, other, v);
      }
    } else {
      LookupAfterBind(scopes, name, v);
      if other != name {
        LookupOtherAfterBind(scopes, name, other, v);
      }
    }
  }

  /**
   * `let` never shadows a visible variable: when an enclosing scope binds
   * the name, only that scope changes, so a loop body updates the counter
   * of the scope around the loop.
   */
  lemma LetUpdatesOuterBinding<V>(scopes: seq<map<string, V>>, name: string, v: V)
    requires |scopes| > 1 && name !in scopes[0] && Lookup(scopes[1..], name).Some?
    ensures LetBinding(scopes, name, v)[0] == scopes[0]
    ensures LetBinding(scopes, name, v)[1..] == Assign(scopes[1..], name, v)
  {
  }
}
