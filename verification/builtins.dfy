/**
 * The built-in functions of Ember.  Each is a `Builtin` value in the
 * global scope, named and with its argument count (-1: any number).  The
 * functions below give what each built-in computes from its arguments;
 * the interpreter performs the two effects, printing a line and appending
 * to a list.
 */
module Builtins {
  import opened Util
  import opened Errors
  import opened Environments
  import opened Values
  import opened Semantics

  /** The built-ins, in the order they are registered. */
  const BUILTINS: seq<Value> := [
    Builtin("print", -1), Builtin("len", 1), Builtin("append", 2), Builtin("type", 1),
    Builtin("str", 1), Builtin("num", 1), Builtin("input", -1)
  ]

  /** The names of the built-ins, in the same order. */
  const BUILTIN_NAMES: seq<string> := ["print", "len", "append", "type", "str", "num", "input"]

  /** Each built-in is registered under its own name, and no two share a name. */
  lemma BuiltinNames()
    ensures |BUILTIN_NAMES| == |BUILTINS|
    ensures forall i | 0 <= i < |BUILTINS| :: BUILTINS[i].Builtin? && BUILTINS[i].name == BUILTIN_NAMES[i]
    ensures forall i, j | 0 <= i < j < |BUILTIN_NAMES| :: BUILTIN_NAMES[i] != BUILTIN_NAMES[j]
  {
    assert forall i | 0 <= i < 7 :: |BUILTIN_NAMES[i]| != 3 || BUILTIN_NAMES[i][0] in {'l', 's', 'n'};
  }

  /** Registering into an empty scope binds each of the seven names to its own built-in. */
  lemma GlobalBuiltins()
    ensures forall i | 0 <= i < |BUILTINS| :: DefineAll(map[], BUILTIN_NAMES, BUILTINS)[BUILTINS[i].name] == BUILTINS[i]
    ensures DefineAll(map[], BUILTIN_NAMES, BUILTINS).Keys == set n | n in BUILTIN_NAMES
  {
    BuiltinNames();
    DefineAllBindsEach(map[], BUILTIN_NAMES, BUILTINS);
  }

  /** Defines every built-in in `env`, in order. */
  method RegisterBuiltins(env: Environment<Value>)
    requires env.Valid()
    modifies env
    ensures env.values == DefineAll(old(env.values), BUILTIN_NAMES, BUILTINS)
  {
    for i := 0 to |BUILTINS|
      invariant env.values == DefineAll(old(env.values), BUILTIN_NAMES[..i], BUILTINS[..i])
    {
      assert BUILTIN_NAMES[..i + 1][..i] == BUILTIN_NAMES[..i];
      assert BUILTINS[..i + 1][..i] == BUILTINS[..i];
      env.Define(BUILTINS[i].name, BUILTINS[i]);
    }
    assert BUILTIN_NAMES[..|BUILTINS|] == BUILTIN_NAMES;
    assert BUILTINS[..|BUILTINS|] == BUILTINS;
  }

  /** `len(x)`: the number of characters of a string or of elements of a list. */
  function Len(lists: Store, arg: Value, line: int, column: int): (o: Outcome<Value>)
    ensures o.Done? <==> arg.Str? || arg.List?
    ensures o.Done? ==> o.value.Number? && IsIntegral(o.value.n) && o.value.n >= 0.0
    ensures o.Raised? ==> o.error.kind == Runtime
  {
    if arg.Str? then Done(Number(|arg.s| as real))
    else if arg.List? then Done(Number(|Items(lists, arg.ref)| as real))
    else Raised(RuntimeError("len() expects a string or list, got " + TypeName(arg), line, column))
  }

  /**
   * A whole-number index selects an element of a list or string exactly
   * when it is below `len`, and then it is the element at that position.
   */
  lemma IndexBelowLen(lists: Store, obj: Value, i: int, line: int, column: int)
    requires obj.List? || obj.Str?
    ensures (ReadIndex(lists, obj, Number(i as real), line, column).Done?) <==> (0 <= i && (i as real) < Len(lists, obj, line, column).value.n)
    ensures obj.List? && 0 <= i < |Items(lists, obj.ref)| ==> ReadIndex(lists, obj, Number(i as real), line, column) == Done(Items(lists, obj.ref)[i])
    ensures obj.Str? && 0 <= i < |obj.s| ==> ReadIndex(lists, obj, Number(i as real), line, column) == Done(Str([obj.s[i]]))
  {
    assert Truncate(i as real) == i;
  }

  /** `append(list, v)` accepts only a list as its first argument. */
  function AppendTarget(arg: Value, line: int, column: int): (r: Result<nat>)
    ensures r.Ok? <==> arg.List?
    ensures r.Ok? ==> r.value == arg.ref
    ensures r.Err? ==> r.error.kind == Runtime
  {
    if arg.List? then Ok(arg.ref)
    else Err(RuntimeError("append() expects a list as first argument, got " + TypeName(arg), line, column))
  }

  /** `str(x)`: the text `print` shows for `x`. */
  function StrOf(lists: Store, arg: Value): (o: Outcome<Value>)
    ensures o.Done? ==> o.value.Str?
    ensures !o.Raised?
  {
    match Render(lists, arg, MAX_NESTING)
    case None => Undetermined
    case Some(text) => Done(Str(text))
  }

  /** `str` leaves a string as it is, so applying it twice changes nothing. */
  lemma StrIdempotent(lists: Store, arg: Value)
    ensures arg.Str? ==> StrOf(lists, arg) == Done(arg)
    ensures StrOf(lists, arg).Done? ==> StrOf(lists, StrOf(lists, arg).value) == StrOf(lists, arg)
  {
  }

  /** The host's quoted form of a string, where it is plain: printable ASCII without backslashes. */
  function Quoted(text: string): (q: Option<string>)
    ensures q.Some? ==> |q.value| == |text| + 2 && q.value[1..|q.value| - 1] == text
  {
    if exists i :: 0 <= i < |text| && (text[i] < ' ' || text[i] > '~' || text[i] == '\\') then None
    else if '\'' !in text then Some("'" + text + "'")
    else if '"' !in text then Some("\"" + text + "\"")
    else None
  }

  /** A string of decimal digits, optionally after a minus sign, read as a number; None for other text. */
  function DecimalValue(text: string): (r: Option<real>)
    ensures r.Some? ==> IsIntegral(r.value)
  {
    if |text| > 0 && AllDigits(text) then
      var n := DigitsValue(text);
      Some(n as real)
    else if |text| > 1 && text[0] == '-' && AllDigits(text[1..]) then
      var n := DigitsValue(text[1..]);
      assert (-(n as real)).Floor == -(n as int);
      Some(-(n as real))
    else None
  }

  /**
   * Text the host's float syntax rejects for certain: printable ASCII with
   * no digit and no `n` or `N` (without digits, the host only accepts the
   * spellings of infinity and not-a-number, each of which has an `n`).
   */
  predicate NeverNumeric(text: string) {
    forall i | 0 <= i < |text| :: ' ' <= text[i] <= '~' && !IsDigit(text[i]) && text[i] != 'n' && text[i] != 'N'
  }

  /**
   * `num(x)`: a number as it is, a boolean as 1 or 0, the text of a
   * decimal integer as its value.  Values the host cannot convert raise
   * an error quoting their text; text the host's float syntax might
   * still accept is left open.
   */
  function Num(lists: Store, arg: Value, line: int, column: int): (o: Outcome<Value>)
    ensures o.Done? ==> o.value.Number?
    ensures arg.Number? ==> o == Done(arg)
    ensures o.Raised? ==> o.error.kind == Runtime && !arg.Number? && !arg.Bool?
    ensures arg.Str? && o.Raised? ==> forall i | 0 <= i < |arg.s| :: !IsDigit(arg.s[i])
  {
    if arg.Number? then Done(arg)
    else if arg.Bool? then Done(Number(BoolAsNumber(arg.b)))
    else if arg.Str? then
      match DecimalValue(arg.s)
      case Some(x) => Done(Number(x))
      case None =>
        if NeverNumeric(arg.s) then
          match Quoted(arg.s)
          case None => Undetermined
          case Some(q) => Raised(RuntimeError("num() cannot convert " + q + " to a number", line, column))
        else Undetermined
    else
      match Render(lists, arg, MAX_NESTING)
      case None => Undetermined
      case Some(text) =>
        match Quoted(text)
        case None => Undetermined
        case Some(q) => Raised(RuntimeError("num() cannot convert " + q + " to a number", line, column))
  }

  /** A word of lower-case letters without `n`, such as `abc`, is rejected with its text in quotes. */
  lemma NumRejectsWord(lists: Store, text: string, line: int, column: int)
    requires forall i | 0 <= i < |text| :: 'a' <= text[i] <= 'z' && text[i] != 'n'
    ensures Num(lists, Str(text), line, column) == Raised(RuntimeError("num() cannot convert '" + text + "' to a number", line, column))
  {
    if |text| > 0 {
      assert !IsDigit(text[0]) && text[0] != '-';
    }
    assert Quoted(text) == Some("'" + text + "'");
  }

  /** `num` undoes `str` on whole numbers. */
  lemma NumOfStr(lists: Store, x: real, line: int, column: int)
    requires IsIntegral(x)
    ensures StrOf(lists, Number(x)).Done?
    ensures Num(lists, StrOf(lists, Number(x)).value, line, column) == Done(Number(x))
  {
    RenderIntegralRoundTrip(lists, x, MAX_NESTING);
    var text := Render(lists, Number(x), MAX_NESTING).value;
    if x < 0.0 {
      assert !AllDigits(text) by {
        assert !IsDigit(text[0]);
      }
    }
  }

  /** The line `print` writes: its arguments' texts separated by single spaces. */
  function PrintLine(lists: Store, args: seq<Value>): (line: Option<string>)
  {
    match RenderAll(lists, args, MAX_NESTING)
    case None => None
    case Some(parts) => Some(Join(" ", parts))
  }

  /** `print()` writes an empty line, and `print(s)` writes exactly the string `s`. */
  lemma PrintLineShapes(lists: Store, s: string)
    ensures PrintLine(lists, []) == Some("")
    ensures PrintLine(lists, [Str(s)]) == Some(s)
  {
    assert RenderAll(lists, [Str(s)], MAX_NESTING) == Some([s]) by {
      RenderAllCons(lists, Str(s), [], MAX_NESTING);
      assert [Str(s)] + [] == [Str(s)] && [s] + [] == [s];
    }
  }

  /** Printing two values writes the first's text, one space, then the second's. */
  lemma PrintLinePair(lists: Store, a: Value, b: Value)
    requires Render(lists, a, MAX_NESTING).Some? && Render(lists, b, MAX_NESTING).Some?
    ensures PrintLine(lists, [a, b]) == Some(Render(lists, a, MAX_NESTING).value + " " + Render(lists, b, MAX_NESTING).value)
  {
    var ta, tb := Render(lists, a, MAX_NESTING).value, Render(lists, b, MAX_NESTING).value;
    assert RenderAll(lists, [b], MAX_NESTING) == Some([tb]) by {
      RenderAllCons(lists, b, [], MAX_NESTING);
      assert [b] + [] == [b] && [tb] + [] == [tb];
    }
    assert RenderAll(lists, [a, b], MAX_NESTING) == Some([ta, tb]) by {
      RenderAllCons(lists, a, [b], MAX_NESTING);
      assert [a] + [b] == [a, b] && [ta] + [tb] == [ta, tb];
    }
    assert Join(" ", [ta, tb]) == ta + " " + tb by {
      assert [ta, tb][1..] == [tb];
    }
  }

  /** Every value has an Ember type name, and two values share one exactly when they are of the same kind. */
  lemma TypeNamesDistinguish(a: Value, b: Value)
    ensures TypeName(a) == TypeName(b) <==>
              (a.Nil? && b.Nil?) || (a.Bool? && b.Bool?) || (a.Number? && b.Number?) || (a.Str? && b.Str?)
              || (a.List? && b.List?) || ((a.Builtin? || a.Function?) && (b.Builtin? || b.Function?))
  {
  }
}
