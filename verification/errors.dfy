/**
 * Ember's error hierarchy: a base error and its syntax, runtime and type
 * kinds.  Every error carries a message and a source position; its text
 * is "[line L, col C] <Label>: <message>" where the label names the kind.
 */
module Errors {
  import opened Util

  /** Which class of the hierarchy an error belongs to. */
  datatype ErrorKind = Generic | Syntax | Runtime | Type

  datatype EmberError = EmberError(kind: ErrorKind, message: string, line: int, column: int)

  function SyntaxError(message: string, line: int, column: int): EmberError {
    EmberError(Syntax, message, line, column)
  }

  function RuntimeError(message: string, line: int, column: int): EmberError {
    EmberError(Runtime, message, line, column)
  }

  function TypeError(message: string, line: int, column: int): EmberError {
    EmberError(Type, message, line, column)
  }

  function Label(k: ErrorKind): string {
    match k
    case Generic => "Error"
    case Syntax => "SyntaxError"
    case Runtime => "RuntimeError"
    case Type => "TypeError"
  }

  /** The position part shared by every kind of error. */
  function Header(line: int, column: int): string {
    "[line " + IntToString(line) + ", col " + IntToString(column) + "] "
  }

  /** The error's text, which is also the text of the raised exception. */
  function Format(e: EmberError): (s: string)
    ensures |s| == |Header(e.line, e.column)| + |Label(e.kind)| + 2 + |e.message|
    ensures s[..|Header(e.line, e.column)|] == Header(e.line, e.column)
    ensures s[|Header(e.line, e.column)|..|Header(e.line, e.column)| + |Label(e.kind)|] == Label(e.kind)
    ensures s[|Header(e.line, e.column)| + |Label(e.kind)|..] == ": " + e.message
  {
    var h := Header(e.line, e.column);
    var rest := Label(e.kind) + (": " + e.message);
    assert (h + rest)[..|h|] == h;
    assert (h + rest)[|h| + |Label(e.kind)|..] == rest[|Label(e.kind)|..];
    assert (h + rest)[|h|..|h| + |Label(e.kind)|] == rest[..|Label(e.kind)|];
    h + rest
  }

  /** The label makes the kind visible: errors of different kinds never print alike. */
  lemma {:induction false} FormatDistinguishesKinds(e1: EmberError, e2: EmberError)
    requires e1.message == e2.message && e1.line == e2.line && e1.column == e2.column
    requires e1.kind != e2.kind
    ensures Format(e1) != Format(e2)
  {
    assert |Label(e1.kind)| != |Label(e2.kind)|;
  }

  /** Outcome of an operation that may raise an Ember error. */
  datatype Result<T> = Ok(value: T) | Err(error: EmberError) {
    predicate IsFailure() {
      Err?
    }

    function PropagateFailure<U>(): Result<U>
      requires Err?
    {
      Err(error)
    }

    function Extract(): T
      requires Ok?
    {
      value
    }
  }
}
