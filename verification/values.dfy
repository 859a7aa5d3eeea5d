/**
 * Ember's runtime values.  Lists are objects shared by reference and
 * changed in place: the contents of every list object live in a `Store`,
 * and a list value is its object's address there, so two values with the
 * same address are the same list.  A user function keeps a reference to
 * the scope it was defined in.  Rendering (what `print` and `str` show)
 * and equality read the contents the store holds for the lists they meet.
 *
 * The host raises RecursionError when it renders or compares lists nested
 * too deeply (a list that contains itself, for one); the model does not
 * decide those cases: the functions below yield None beyond
 * `MAX_NESTING` levels of lists.
 */
module Values {
  import opened Util
  import opened Errors
  import opened Ast
  import opened Environments

  datatype Value =
    | Nil
    | Bool(b: bool)
    | Number(n: real)
    | Str(s: string)
    /** The list object at address `ref` of the store. */
    | List(ref: nat)
    /** A built-in function; `arity` -1 accepts any number of arguments. */
    | Builtin(name: string, arity: int)
    /** A user function and the scope it closes over. */
    | Function(name: string, params: seq<string>, body: seq<Stmt>, closure: Environment<Value>)

  /** The contents of the list objects, by address. */
  type Store = seq<seq<Value>>

  /** The contents of the list at `ref`; no list lives past the end of the store. */
  function Items(lists: Store, ref: nat): seq<Value> {
    if ref < |lists| then lists[ref] else []
  }

  /** How many levels of nested lists rendering and equality follow before giving up. */
  const MAX_NESTING: nat := 1000

  /** The outcome of running code: a value, a raised Ember error, or a case the model leaves open. */
  datatype Outcome<T> = Done(value: T) | Raised(error: EmberError) | Undetermined {
    predicate IsFailure() {
      !Done?
    }

    function PropagateFailure<U>(): Outcome<U>
      requires !Done?
    {
      if Raised? then Raised(error) else Undetermined
    }

    function Extract(): T
      requires Done?
    {
      value
    }
  }

  function FromResult<T>(r: Result<T>): (o: Outcome<T>)
    ensures o.Done? <==> r.Ok?
    ensures r.Ok? ==> o.value == r.value
    ensures r.Err? ==> o == Raised(r.error)
  {
    match r
    case Ok(v) => Done(v)
    case Err(e) => Raised(e)
  }

  /** Only nil and false are falsy. */
  predicate IsTruthy(v: Value) {
    match v
    case Nil => false
    case Bool(b) => b
    case _ => true
  }

  /** The name Ember gives a value's type. */
  function TypeName(v: Value): (name: string)
    ensures name in {"nil", "bool", "number", "string", "list", "function"}
  {
    match v
    case Nil => "nil"
    case Bool(_) => "bool"
    case Number(_) => "number"
    case Str(_) => "string"
    case List(_) => "list"
    case Builtin(_, _) => "function"
    case Function(_, _, _, _) => "function"
  }

  /** The name the host gives the class of a value, used by two error messages. */
  function HostTypeName(v: Value): string {
    match v
    case Nil => "NoneType"
    case Bool(_) => "bool"
    case Number(_) => "float"
    case Str(_) => "str"
    case List(_) => "list"
    case Builtin(_, _) => "EmberBuiltin"
    case Function(_, _, _, _) => "EmberFunction"
  }

  predicate IsIntegral(x: real) {
    x == x.Floor as real
  }

  /**
   * What `print` and `str` show.  An integral number prints without a
   * decimal point; other numbers have the host's shortest round-trip
   * text, which the model leaves open (None), as it does for lists nested
   * more than `fuel` deep.
   */
  function Render(lists: Store, v: Value, fuel: nat): (r: Option<string>)
    ensures v.Str? ==> r == Some(v.s)
    decreases fuel, 1, 0
  {
    match v
    case Nil => Some("nil")
    case Bool(b) => Some(if b then "true" else "false")
    case Number(x) => if IsIntegral(x) then Some(IntToString(x.Floor)) else None
    case Str(s) => Some(s)
    case List(ref) =>
      if fuel == 0 then None
      else
        (match RenderAll(lists, Items(lists, ref), fuel - 1)
         case None => None
         case Some(parts) => Some("[" + Join(", ", parts) + "]"))
    case Builtin(name, _) => Some("<builtin " + name + ">")
    case Function(name, _, _, _) => Some("<fn " + name + ">")
  }

  /** The renderings of `vs`, in order, if every one is determined. */
  function RenderAll(lists: Store, vs: seq<Value>, fuel: nat): (r: Option<seq<string>>)
    ensures r.Some? ==> |r.value| == |vs|
    ensures r.Some? ==> forall i :: 0 <= i < |vs| ==> Render(lists, vs[i], fuel) == Some(r.value[i])
    decreases fuel, 2, |vs|
  {
    if vs == [] then Some([])
    else
      match Render(lists, vs[0], fuel)
      case None => None
      case Some(first) =>
        match RenderAll(lists, vs[1..], fuel)
        case None => None
        case Some(rest) =>
          assert forall i :: 1 <= i < |vs| ==> vs[i] == vs[1..][i - 1];
          Some([first] + rest)
  }

  /** A boolean compared with a number counts as 1 or 0, as the host's booleans do. */
  function BoolAsNumber(b: bool): real {
    if b then 1.0 else 0.0
  }

  /** The host's equality on two values neither of which is a list. */
  predicate ScalarEqual(a: Value, b: Value) {
    if a.Bool? && b.Bool? then a.b == b.b
    else if a.Bool? && b.Number? then BoolAsNumber(a.b) == b.n
    else if a.Number? && b.Bool? then a.n == BoolAsNumber(b.b)
    else if a.Number? && b.Number? then a.n == b.n
    else if a.Str? && b.Str? then a.s == b.s
    else if a.Builtin? && b.Builtin? then a == b
    else if a.Function? && b.Function? then a == b
    else false
  }

  /**
   * Ember's `==`: nil equals only nil; otherwise the host's equality, under
   * which two lists are equal when they have the same length and equal
   * elements in order.  None when lists nest more than `fuel` deep.
   */
  function Equal(lists: Store, a: Value, b: Value, fuel: nat): (r: Option<bool>)
    ensures a.Nil? || b.Nil? ==> r == Some(a.Nil? && b.Nil?)
    decreases fuel, 1, 0
  {
    if a.Nil? || b.Nil? then Some(a.Nil? && b.Nil?)
    else if a.List? && b.List? then
      if fuel == 0 then None else ItemsEqual(lists, Items(lists, a.ref), Items(lists, b.ref), fuel - 1)
    else if a.List? || b.List? then Some(false)
    else Some(ScalarEqual(a, b))
  }

  /** Two elements that are the same list object are equal without looking inside. */
  predicate SameList(a: Value, b: Value) {
    a.List? && b.List? && a.ref == b.ref
  }

  /** Element-wise comparison, stopping at the first unequal pair. */
  function ItemsEqual(lists: Store, xs: seq<Value>, ys: seq<Value>, fuel: nat): (r: Option<bool>)
    decreases fuel, 2, |xs|
  {
    if |xs| != |ys| then Some(false)
    else if xs == [] then Some(true)
    else if SameList(xs[0], ys[0]) then ItemsEqual(lists, xs[1..], ys[1..], fuel)
    else
      match Equal(lists, xs[0], ys[0], fuel)
      case None => None
      case Some(false) => Some(false)
      case Some(true) => ItemsEqual(lists, xs[1..], ys[1..], fuel)
  }

  // ---------------------------------------------------------------
  // Properties of rendering and equality
  // ---------------------------------------------------------------

  /** An integral number prints as its decimal digits, which read back as the number. */
  lemma RenderIntegralRoundTrip(lists: Store, x: real, fuel: nat)
    requires IsIntegral(x)
    ensures Render(lists, Number(x), fuel).Some?
    ensures var text := Render(lists, Number(x), fuel).value;
              if x >= 0.0 then AllDigits(text) && DigitsValue(text) as real == x
              else text[0] == '-' && AllDigits(text[1..]) && DigitsValue(text[1..]) as real == -x
  {
    var i := x.Floor;
    if x >= 0.0 {
      DigitsValueOfNatToString(i);
    } else {
      var text := IntToString(i);
      assert text[1..] == NatToString(-i);
      DigitsValueOfNatToString(-i);
    }
  }

  /** Rendering a sequence renders its first value, then the rest. */
  lemma RenderAllCons(lists: Store, v: Value, vs: seq<Value>, fuel: nat)
    requires Render(lists, v, fuel).Some? && RenderAll(lists, vs, fuel).Some?
    ensures RenderAll(lists, [v] + vs, fuel) == Some([Render(lists, v, fuel).value] + RenderAll(lists, vs, fuel).value)
  {
    assert ([v] + vs)[0] == v && ([v] + vs)[1..] == vs;
  }

  /** An empty list prints as `[]`. */
  lemma RenderEmptyList(lists: Store, ref: nat, fuel: nat)
    requires Items(lists, ref) == [] && fuel > 0
    ensures Render(lists, List(ref), fuel) == Some("[]")
  {
    assert RenderAll(lists, Items(lists, ref), fuel - 1) == Some([]);
    assert "[" + Join(", ", []) + "]" == "[]";
  }

  /** `==` does not depend on the order of its operands. */
  lemma {:induction false} EqualSymmetric(lists: Store, a: Value, b: Value, fuel: nat)
    ensures Equal(lists, a, b, fuel) == Equal(lists, b, a, fuel)
    decreases fuel, 1, 0
  {
    if !a.Nil? && !b.Nil? && a.List? && b.List? && fuel > 0 {
      ItemsEqualSymmetric(lists, Items(lists, a.ref), Items(lists, b.ref), fuel - 1);
    }
  }

  lemma {:induction false} ItemsEqualSymmetric(lists: Store, xs: seq<Value>, ys: seq<Value>, fuel: nat)
    ensures ItemsEqual(lists, xs, ys, fuel) == ItemsEqual(lists, ys, xs, fuel)
    decreases fuel, 2, |xs|
  {
    if |xs| == |ys| && xs != [] {
      if !SameList(xs[0], ys[0]) {
        EqualSymmetric(lists, xs[0], ys[0], fuel);
      }
      ItemsEqualSymmetric(lists, xs[1..], ys[1..], fuel);
    }
  }

  /**
   * Every value equals itself, a list included (its elements are compared
   * by identity first, so even a list that contains itself is equal to itself).
   */
  lemma EqualReflexive(lists: Store, v: Value, fuel: nat)
    requires v.List? ==> fuel > 0
    ensures Equal(lists, v, v, fuel) == Some(true)
  {
    if v.List? {
      ItemsEqualReflexive(lists, Items(lists, v.ref), fuel - 1);
    }
  }

  lemma {:induction false} ItemsEqualReflexive(lists: Store, xs: seq<Value>, fuel: nat)
    ensures ItemsEqual(lists, xs, xs, fuel) == Some(true)
    decreases |xs|
  {
    if xs != [] {
      ItemsEqualReflexive(lists, xs[1..], fuel);
    }
  }

  /** Lists of different lengths are unequal, whatever their elements. */
  lemma LengthsDiffer(lists: Store, a: nat, b: nat, fuel: nat)
    requires |Items(lists, a)| != |Items(lists, b)| && fuel > 0
    ensures Equal(lists, List(a), List(b), fuel) == Some(false)
  {
  }
}
