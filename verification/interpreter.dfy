/**
 * Ember's tree-walking interpreter.  It keeps the global scope, the
 * contents of the lists, the lines printed so far and the depth of
 * user-function calls; statements and expressions are evaluated
 * recursively in a scope, every block running in a fresh scope enclosed
 * by the one around it.
 *
 * What each construct does is stated as a rule relating a `State` before
 * it (every scope's bindings, the lists, the output and the call depth)
 * to the state after it and its outcome, through the runs of its parts,
 * each between two states of its own.  Each method of the interpreter is
 * proved to follow its construct's rule from the state it starts in to
 * the state it leaves.  A `fuel` bound limits the depth of evaluation
 * and the iterations of a loop; when it runs out the outcome is
 * `Undetermined`.
 */
module Interpreters {
  import opened Util
  import opened Errors
  import opened Ast
  import opened Environments
  import opened Values
  import opened Semantics
  import opened Builtins

  /** How many user-function calls may be in progress at once. */
  const MAX_CALL_DEPTH: int := 1000

  /** How a statement finishes: normally, or by `return` on its way to the enclosing call. */
  datatype Completion = Normal | Returning(value: Value)

  /** The error raised by one call too many. */
  function DepthError(line: int, column: int): (e: EmberError)
    ensures e.kind == Runtime
  {
    RuntimeError("Maximum recursion depth exceeded (1000)", line, column)
  }

  predicate IsDepthError(e: EmberError) {
    e.kind == Runtime && e.message == "Maximum recursion depth exceeded (1000)"
  }

  /** The outcome of a call once its body has finished: the returned value, or nil. */
  function CallResult(body: Outcome<Completion>): (o: Outcome<Value>)
    ensures body.Done? && body.value.Returning? ==> o == Done(body.value.value)
    ensures body.Done? && body.value.Normal? ==> o == Done(Value.Nil)
    ensures body.Raised? ==> o == Raised(body.error)
    ensures body.Undetermined? ==> o.Undetermined?
  {
    match body
    case Done(Returning(v)) => Done(v)
    case Done(Normal) => Done(Value.Nil)
    case Raised(e) => Raised(e)
    case Undetermined => Undetermined
  }

  /** A statement whose run may end in `return`: the statement itself, or a block inside it. */
  predicate MayReturn(s: Stmt) {
    s.ReturnStatement? || s.IfStatement? || s.WhileStatement?
  }

  /** The condition of an `if`'s branch `k`: 0 is the `if` itself, k > 0 the k-th `elif`. */
  function BranchCondition(s: Stmt, k: nat): Expr
    requires s.IfStatement? && k <= |s.elifClauses|
  {
    if k == 0 then s.condition else s.elifClauses[k - 1].condition
  }

  /** The block of an `if`'s branch `k`: 0 is the `if` itself, k > 0 the k-th `elif`. */
  function BranchBody(s: Stmt, k: nat): seq<Stmt>
    requires s.IfStatement? && k <= |s.elifClauses|
  {
    if k == 0 then s.thenBody else s.elifClauses[k - 1].body
  }

  function Last<T>(s: seq<T>): T
    requires |s| > 0
  {
    s[|s| - 1]
  }

  // ---------------------------------------------------------------
  // States, and runs from one state to another
  // ---------------------------------------------------------------

  /**
   * What the interpreter holds at one moment: the bindings of every
   * scope made so far, the contents of the lists, the lines printed and
   * the number of user-function calls in progress.
   */
  datatype State = State(scopes: map<Environment<Value>, map<string, Value>>, lists: Store,
                         output: seq<string>, depth: int)

  /** The bindings visible from `env` in state `st`: its own scope's, then each enclosing scope's outwards. */
  ghost function Chain(st: State, env: Environment<Value>): (c: seq<map<string, Value>>)
    requires env.Valid()
    ensures |c| == env.depth + 1
    decreases env.depth
  {
    [if env in st.scopes then st.scopes[env] else map[]] + (if env.parent == null then [] else Chain(st, env.parent))
  }

  /** One evaluation of an expression: the states before and after, its outcome and how it got there. */
  datatype ERun = ERun(pre: State, post: State, out: Outcome<Value>, trace: ETrace)

  /** The runs of an expression's parts. */
  datatype ETrace =
    | Leaf
    /** The operands evaluated, in order. */
    | Operands(runs: seq<ERun>)
    /** A list literal's elements evaluated, in order, and what they gave together. */
    | Elements(runs: seq<ERun>, values: Outcome<seq<Value>>)
    /** A call: the callee, the arguments, and the body of a user function when one ran. */
    | CallTrace(callee: ERun, args: seq<ERun>, argValues: Outcome<seq<Value>>, invocation: Option<Invocation>)

  /** A user function's body run in the scope made for the call. */
  datatype Invocation = Invocation(scope: Environment<Value>, body: seq<SRun>)

  /** One execution of a statement. */
  datatype SRun = SRun(pre: State, post: State, out: Outcome<Completion>, trace: STrace)

  /** The runs of a statement's parts. */
  datatype STrace =
    | NoParts
    | ValuePart(value: ERun)
    | StoreParts(operands: seq<ERun>, values: Outcome<seq<Value>>)
    | IfParts(conditions: seq<ERun>, block: Option<BlockRun>)
    | WhileParts(rounds: seq<RoundRun>)

  /** One run of a block in the new scope made for it. */
  datatype BlockRun = BlockRun(pre: State, post: State, out: Outcome<Completion>, scope: Environment<Value>,
                               body: seq<SRun>)

  /** One round of a `while`: its condition, then possibly its body. */
  datatype RoundRun = RoundRun(pre: State, post: State, out: Outcome<Completion>, condition: ERun,
                               block: Option<BlockRun>)

  /** Each run starts in the state the one before it ended in, the first in `pre`. */
  ghost predicate ExprsChained(pre: State, runs: seq<ERun>) {
    && (|runs| > 0 ==> runs[0].pre == pre)
    && forall k | 0 <= k < |runs| - 1 :: runs[k + 1].pre == runs[k].post
  }

  ghost function ExprsEnd(pre: State, runs: seq<ERun>): State {
    if runs == [] then pre else Last(runs).post
  }

  ghost predicate StmtsChained(pre: State, runs: seq<SRun>) {
    && (|runs| > 0 ==> runs[0].pre == pre)
    && forall k | 0 <= k < |runs| - 1 :: runs[k + 1].pre == runs[k].post
  }

  ghost function StmtsEnd(pre: State, runs: seq<SRun>): State {
    if runs == [] then pre else Last(runs).post
  }

  ghost predicate RoundsChained(pre: State, rounds: seq<RoundRun>) {
    && (|rounds| > 0 ==> rounds[0].pre == pre)
    && forall k | 0 <= k < |rounds| - 1 :: rounds[k + 1].pre == rounds[k].post
  }

  /** How statements run in order end: as the last one that ran, or normally when there were none. */
  function SeqOutcome(runs: seq<SRun>): Outcome<Completion> {
    if runs == [] then Done(Normal) else Last(runs).out
  }

  // ---------------------------------------------------------------
  // The rules of evaluation
  // ---------------------------------------------------------------

  /**
   * `r` is an evaluation of `e` in `env` that may nest `fuel` deep.
   * A literal gives its value and a variable its binding in the scopes
   * visible from `env`, neither changing anything; every other
   * expression follows its own rule below.  Without fuel the outcome is
   * left open.
   */
  ghost predicate EvalRule(e: Expr, env: Environment<Value>, fuel: nat, r: ERun)
    decreases fuel, 0
  {
    if fuel == 0 then r.out.Undetermined? && r.post == r.pre
    else
      match e
      case NumberLiteral(_, _, _) | StringLiteral(_, _, _) | BoolLiteral(_, _, _) | NilLiteral(_, _) =>
        r.out == Done(LiteralValue(e)) && r.post == r.pre
      case Identifier(line, column, name) =>
        env.Valid() && r.out == Variable(Chain(r.pre, env), name, line, column) && r.post == r.pre
      case ListLiteral(_, _, elements) => ListRule(elements, env, fuel - 1, r)
      case UnaryOp(_, _, _, _) => UnaryRule(e, env, fuel - 1, r)
      case BinaryOp(_, _, _, _, _) => BinaryRule(e, env, fuel - 1, r)
      case IndexAccess(_, _, _, _) => IndexRule(e, env, fuel - 1, r)
      case FunctionCall(_, _, _, _) => CallRule(e, env, fuel - 1, r)
  }

  /** The value a literal stands for: its number, text or truth value, or nil. */
  function LiteralValue(e: Expr): (v: Value)
    requires e.NumberLiteral? || e.StringLiteral? || e.BoolLiteral? || e.NilLiteral?
    ensures e.NumberLiteral? <==> v.Number?
    ensures e.StringLiteral? <==> v.Str?
    ensures e.BoolLiteral? <==> v.Bool?
    ensures e.NilLiteral? <==> v.Nil?
  {
    match e
    case NumberLiteral(_, _, x) => Number(x)
    case StringLiteral(_, _, text) => Str(text)
    case BoolLiteral(_, _, b) => Bool(b)
    case NilLiteral(_, _) => Value.Nil
  }

  /**
   * `es` evaluated left to right from state `pre`, each from the state
   * the one before left, stopping at the first that does not give a
   * value: `vals` is then that failure, and otherwise all their values.
   */
  ghost predicate EvalAllRule(es: seq<Expr>, env: Environment<Value>, fuel: nat, pre: State, runs: seq<ERun>,
                              vals: Outcome<seq<Value>>)
    decreases fuel, 1
  {
    && |runs| <= |es|
    && ExprsChained(pre, runs)
    && (forall k | 0 <= k < |runs| :: EvalRule(es[k], env, fuel, runs[k]))
    && (forall k | 0 <= k < |runs| - 1 :: runs[k].out.Done?)
    && (vals.Done? ==>
          && |runs| == |es| == |vals.value|
          && forall k | 0 <= k < |runs| :: runs[k].out == Done(vals.value[k]))
    && (!vals.Done? ==> runs != [] && !Last(runs).out.Done? && vals == Last(runs).out.PropagateFailure())
  }

  /**
   * `[e1, e2, ...]`: the elements in order, then a new list holding
   * their values, at the next free address; or the first failure.
   */
  ghost predicate ListRule(elements: seq<Expr>, env: Environment<Value>, fuel: nat, r: ERun)
    decreases fuel, 2
  {
    && r.trace.Elements?
    && EvalAllRule(elements, env, fuel, r.pre, r.trace.runs, r.trace.values)
    && var mid := ExprsEnd(r.pre, r.trace.runs);
       if r.trace.values.Done? then
         r.out == Done(List(|mid.lists|)) && r.post == mid.(lists := mid.lists + [r.trace.values.value])
       else
         r.out == r.trace.values.PropagateFailure() && r.post == mid
  }

  /** A unary operator: the operand, then `Unary` on its value, or the operand's failure. */
  ghost predicate UnaryRule(e: Expr, env: Environment<Value>, fuel: nat, r: ERun)
    requires e.UnaryOp?
    decreases fuel, 1
  {
    && r.trace.Operands? && |r.trace.runs| == 1
    && var a := r.trace.runs[0];
       && a.pre == r.pre && r.post == a.post
       && EvalRule(e.operand, env, fuel, a)
       && r.out == if a.out.Done? then Unary(a.post.lists, e.operator, a.out.value, e.line, e.column) else a.out
  }

  /**
   * A binary operator: the left operand first, and its failure is the
   * outcome.  `and` and `or` give the left value when it decides, without
   * evaluating the right operand, and otherwise the right operand's
   * outcome; every other operator evaluates the right operand and applies
   * `Binary` to both values, or gives the right operand's failure.
   */
  ghost predicate BinaryRule(e: Expr, env: Environment<Value>, fuel: nat, r: ERun)
    requires e.BinaryOp?
    decreases fuel, 1
  {
    && r.trace.Operands? && 0 < |r.trace.runs| <= 2
    && var runs := r.trace.runs;
       var left := runs[0];
       && left.pre == r.pre && EvalRule(e.left, env, fuel, left)
       && r.post == Last(runs).post
       && if !left.out.Done? then |runs| == 1 && r.out == left.out
          else if (e.operator == "and" || e.operator == "or") && Decides(e.operator, left.out.value) then
            |runs| == 1 && r.out == left.out
          else
            && |runs| == 2 && runs[1].pre == left.post && EvalRule(e.right, env, fuel, runs[1])
            && r.out == if e.operator == "and" || e.operator == "or" then runs[1].out
                        else if runs[1].out.Done? then
                          Binary(runs[1].post.lists, e.operator, left.out.value, runs[1].out.value, e.line, e.column)
                        else runs[1].out
  }

  /** `obj[index]`: both operands in order, then `ReadIndex` on their values, or the first failure. */
  ghost predicate IndexRule(e: Expr, env: Environment<Value>, fuel: nat, r: ERun)
    requires e.IndexAccess?
    decreases fuel, 1
  {
    && r.trace.Operands? && 0 < |r.trace.runs| <= 2
    && var runs := r.trace.runs;
       var obj := runs[0];
       && obj.pre == r.pre && EvalRule(e.obj, env, fuel, obj)
       && r.post == Last(runs).post
       && if !obj.out.Done? then |runs| == 1 && r.out == obj.out
          else
            && |runs| == 2 && runs[1].pre == obj.post && EvalRule(e.index, env, fuel, runs[1])
            && r.out == if runs[1].out.Done? then
                          ReadIndex(runs[1].post.lists, obj.out.value, runs[1].out.value, e.line, e.column)
                        else runs[1].out
  }

  /** A call: the callee, then the arguments left to right, then `ApplyRule`; or the first failure. */
  ghost predicate CallRule(e: Expr, env: Environment<Value>, fuel: nat, r: ERun)
    requires e.FunctionCall?
    decreases fuel, 6
  {
    && r.trace.CallTrace?
    && var t := r.trace;
       && t.callee.pre == r.pre && EvalRule(e.callee, env, fuel, t.callee)
       && if !t.callee.out.Done? then
            t.args == [] && t.invocation.None? && r.out == t.callee.out && r.post == t.callee.post
          else
            ArgumentsRule(e, env, fuel, t.callee.out.value, t.callee.post, r.post, r.out, t.args, t.argValues,
                          t.invocation)
  }

  /**
   * The rest of a call once the callee gave `f`: the arguments left to
   * right from `pre`, then `ApplyRule`; or the first failing argument.
   */
  ghost predicate ArgumentsRule(e: Expr, env: Environment<Value>, fuel: nat, f: Value, pre: State, post: State,
                                o: Outcome<Value>, args: seq<ERun>, argValues: Outcome<seq<Value>>,
                                invocation: Option<Invocation>)
    requires e.FunctionCall?
    decreases fuel, 5
  {
    && EvalAllRule(e.arguments, env, fuel, pre, args, argValues)
    && var mid := ExprsEnd(pre, args);
       if !argValues.Done? then
         invocation.None? && o == argValues.PropagateFailure() && post == mid
       else
         ApplyRule(f, argValues.value, e.line, e.column, fuel, mid, post, o, invocation)
  }

  /**
   * Calling `f` on `args` from state `pre`: a built-in or a user function
   * once the argument count is checked (a wrong count is an error and
   * changes nothing); any other value cannot be called.
   */
  ghost predicate ApplyRule(f: Value, args: seq<Value>, line: int, column: int, fuel: nat, pre: State, post: State,
                            o: Outcome<Value>, invocation: Option<Invocation>)
    decreases fuel, 4
  {
    if f.Builtin? then
      var arity := CheckArity(f.name, f.arity, |args|, line, column);
      && invocation.None?
      && if arity.Err? then o == Raised(arity.error) && post == pre
         else BuiltinRule(f, args, line, column, pre, post, o)
    else if f.Function? then
      var arity := CheckArity(f.name, |f.params|, |args|, line, column);
      if arity.Err? then invocation.None? && o == Raised(arity.error) && post == pre
      else CallFunctionRule(f, args, line, column, fuel, pre, post, o, invocation)
    else
      invocation.None? && o == CannotCall(pre.lists, f, line, column) && post == pre
  }

  /**
   * A built-in on arguments of the count it expects: `print` adds one
   * line to the output, `append` one element to its list; `len`, `type`,
   * `str` and `num` change nothing; `input` is left open.
   */
  ghost predicate BuiltinRule(f: Value, args: seq<Value>, line: int, column: int, pre: State, post: State,
                              o: Outcome<Value>)
    requires f.Builtin?
  {
    if f.name == "print" then
      var text := PrintLine(pre.lists, args);
      if text.Some? then o == Done(Value.Nil) && post == pre.(output := pre.output + [text.value])
      else o.Undetermined? && post == pre
    else if f.name == "append" && |args| == 2 then
      match AppendTarget(args[0], line, column)
      case Ok(ref) =>
        && ref < |pre.lists| && o == Done(Value.Nil)
        && post == pre.(lists := pre.lists[ref := pre.lists[ref] + [args[1]]])
      case Err(e) => o == Raised(e) && post == pre
    else
      && post == pre
      && (f.name == "len" && |args| == 1 ==> o == Len(pre.lists, args[0], line, column))
      && (f.name == "type" && |args| == 1 ==> o == Done(Str(TypeName(args[0]))))
      && (f.name == "str" && |args| == 1 ==> o == StrOf(pre.lists, args[0]))
      && (f.name == "num" && |args| == 1 ==> o == Num(pre.lists, args[0], line, column))
      && (f.name == "input" ==> o.Undetermined?)
  }

  /**
   * A user-function call: with 1000 calls already in progress it raises
   * the depth error and the count drops to 0.  Otherwise the count goes
   * up by one while the body runs (`BodyRule`) and back down after, and
   * the call gives the value a `return` carried, nil when the body
   * finished, or the body's failure.
   */
  ghost predicate CallFunctionRule(f: Value, args: seq<Value>, line: int, column: int, fuel: nat, pre: State,
                                   post: State, o: Outcome<Value>, invocation: Option<Invocation>)
    requires f.Function? && |args| == |f.params|
    decreases fuel, 3
  {
    if pre.depth >= MAX_CALL_DEPTH then
      invocation.None? && o == Raised(DepthError(line, column)) && post == pre.(depth := 0)
    else
      && invocation.Some?
      && var body := SeqOutcome(invocation.value.body);
         && BodyRule(f, args, fuel, pre.(depth := pre.depth + 1), post.(depth := post.depth + 1), body,
                     invocation.value)
         && o == CallResult(body)
  }

  /**
   * A call that got past the depth check: its body ran from `entry`, the
   * state with one more call in progress, to `exit`, and the call left
   * `post`, `exit` with that call no longer in progress.
   */
  lemma CallReturned(f: Value, args: seq<Value>, line: int, column: int, fuel: nat, pre: State, entry: State,
                     exit: State, post: State, body: Outcome<Completion>, run: Invocation)
    requires f.Function? && |args| == |f.params| && pre.depth < MAX_CALL_DEPTH
    requires entry == pre.(depth := pre.depth + 1) && post == exit.(depth := exit.depth - 1)
    requires BodyRule(f, args, fuel, entry, exit, body, run)
    ensures CallFunctionRule(f, args, line, column, fuel, pre, post, CallResult(body), Some(run))
  {
    assert post.(depth := post.depth + 1) == exit;
    assert body == SeqOutcome(run.body);
  }

  /**
   * A user function's body: a scope that did not exist, enclosed by the
   * function's closure, starts with each parameter bound to its argument,
   * and the body's statements run in it in order.
   */
  ghost predicate BodyRule(f: Value, args: seq<Value>, fuel: nat, pre: State, post: State, o: Outcome<Completion>,
                           invocation: Invocation)
    requires f.Function? && |args| == |f.params|
    decreases fuel, 2
  {
    var scope := invocation.scope;
    && scope !in pre.scopes && scope.Valid() && scope.parent == f.closure
    && var start := pre.(scopes := pre.scopes[scope := DefineAll(map[], f.params, args)]);
       && SeqRule(f.body, scope, fuel, start, invocation.body)
       && post == StmtsEnd(start, invocation.body)
       && o == SeqOutcome(invocation.body)
  }

  // ---------------------------------------------------------------
  // The rules of execution
  // ---------------------------------------------------------------

  /**
   * `stmts` run in order in `env` from state `pre`, each from the state
   * the one before left, every one but the last finishing normally; they
   * stop early only at one that does not.
   */
  ghost predicate SeqRule(stmts: seq<Stmt>, env: Environment<Value>, fuel: nat, pre: State, runs: seq<SRun>)
    decreases fuel, 1
  {
    && |runs| <= |stmts|
    && StmtsChained(pre, runs)
    && (forall k | 0 <= k < |runs| :: ExecRule(stmts[k], env, fuel, runs[k]))
    && (forall k | 0 <= k < |runs| - 1 :: runs[k].out == Done(Normal))
    && (|runs| < |stmts| ==> runs != [] && Last(runs).out != Done(Normal))
  }

  /**
   * `r` is an execution of `s` in `env` that may nest `fuel` deep: `let`,
   * index assignment, `if` and `while` by their rules below; `fn` binds
   * a function closing over `env` in `env`'s own scope; `return` gives
   * its value (nil without one) and an expression statement finishes
   * normally once its value is known, each failing as its expression
   * does.
   */
  ghost predicate ExecRule(s: Stmt, env: Environment<Value>, fuel: nat, r: SRun)
    decreases fuel, 0
  {
    if fuel == 0 then r.out.Undetermined? && r.post == r.pre
    else
      match s
      case LetStatement(_, _, _, _) => LetRule(s, env, fuel - 1, r)
      case IndexAssignment(_, _, _, _, _) => StoreRule(s, env, fuel - 1, r)
      case IfStatement(_, _, _, _, _, _) => IfRule(s, env, fuel - 1, r)
      case WhileStatement(_, _, _, _) => WhileRule(s, env, fuel - 1, r)
      case FunctionDef(_, _, name, params, body) =>
        && env in r.pre.scopes && r.out == Done(Normal)
        && r.post == r.pre.(scopes := r.pre.scopes[env := r.pre.scopes[env][name := Function(name, params, body, env)]])
      case ReturnStatement(_, _, _) => ReturnRule(s, env, fuel - 1, r)
      case ExpressionStatement(_, _, x) =>
        && r.trace.ValuePart?
        && var v := r.trace.value;
           && v.pre == r.pre && v.post == r.post && EvalRule(x, env, fuel - 1, v)
           && r.out == if v.out.Done? then Done(Normal) else v.out.PropagateFailure()
  }

  /** `return`: its value, nil without one, carried out as `Returning`; a failing value is the outcome. */
  ghost predicate ReturnRule(s: Stmt, env: Environment<Value>, fuel: nat, r: SRun)
    requires s.ReturnStatement?
    decreases fuel, 1
  {
    if s.result.None? then r.out == Done(Returning(Value.Nil)) && r.post == r.pre
    else
      && r.trace.ValuePart?
      && var v := r.trace.value;
         && v.pre == r.pre && v.post == r.post && EvalRule(s.result.value, env, fuel, v)
         && r.out == if v.out.Done? then Done(Returning(v.out.value)) else v.out.PropagateFailure()
  }

  /**
   * `let name = v` in `env` takes `pre` to `post`: the nearest scope
   * visible from `env` that binds `name` is updated, or else `env`'s own
   * scope gains it (`LetBinding` on the visible scopes); no other scope,
   * no list, no output and no count changes.
   */
  ghost predicate LetState(pre: State, env: Environment<Value>, name: string, v: Value, post: State) {
    && env.Valid() && env in pre.scopes
    && post == pre.(scopes := post.scopes)
    && post.scopes.Keys == pre.scopes.Keys
    && (forall e | e in pre.scopes && e !in env.Repr() :: post.scopes[e] == pre.scopes[e])
    && Chain(post, env) == LetBinding(Chain(pre, env), name, v)
  }

  /** `let name = value`: the value, then `LetState`; a failing value is the outcome. */
  ghost predicate LetRule(s: Stmt, env: Environment<Value>, fuel: nat, r: SRun)
    requires s.LetStatement?
    decreases fuel, 1
  {
    && r.trace.ValuePart?
    && var v := r.trace.value;
       && v.pre == r.pre && EvalRule(s.value, env, fuel, v)
       && if v.out.Done? then r.out == Done(Normal) && LetState(v.post, env, s.name, v.out.value, r.post)
          else r.out == v.out.PropagateFailure() && r.post == v.post
  }

  /**
   * `obj[index] = value`: the three in that order, then `StoreTarget`
   * picks the position, and only that element of that list changes; a
   * failure among the three, or `StoreTarget`'s error, changes nothing
   * more.
   */
  ghost predicate StoreRule(s: Stmt, env: Environment<Value>, fuel: nat, r: SRun)
    requires s.IndexAssignment?
    decreases fuel, 2
  {
    && r.trace.StoreParts?
    && EvalAllRule([s.obj, s.index, s.value], env, fuel, r.pre, r.trace.operands, r.trace.values)
    && var mid := ExprsEnd(r.pre, r.trace.operands);
       if !r.trace.values.Done? then r.out == r.trace.values.PropagateFailure() && r.post == mid
       else
         var vs := r.trace.values.value;
         && |vs| == 3
         && var t := StoreTarget(mid.lists, vs[0], vs[1], s.line, s.column);
            if t.Done? then
              && vs[0].ref < |mid.lists|
              && r.out == Done(Normal)
              && r.post == mid.(lists := mid.lists[vs[0].ref := mid.lists[vs[0].ref][t.value := vs[2]]])
            else r.out == t.PropagateFailure() && r.post == mid
  }

  /**
   * The conditions of an `if` (the `if`'s, then each `elif`'s) evaluated
   * in order from `pre` until one fails or is truthy: every one before
   * the last is falsy, and a falsy last one is the last there is.
   */
  ghost predicate SelectRule(s: Stmt, env: Environment<Value>, fuel: nat, pre: State, conditions: seq<ERun>)
    requires s.IfStatement?
    decreases fuel, 1
  {
    && 0 < |conditions| <= |s.elifClauses| + 1
    && ExprsChained(pre, conditions)
    && (forall k | 0 <= k < |conditions| :: EvalRule(BranchCondition(s, k), env, fuel, conditions[k]))
    && (forall k | 0 <= k < |conditions| - 1 :: conditions[k].out.Done? && !IsTruthy(conditions[k].out.value))
    && (Last(conditions).out.Done? && !IsTruthy(Last(conditions).out.value) ==> |conditions| == |s.elifClauses| + 1)
  }

  /**
   * `if`: `SelectRule`, then the block of the branch whose condition was
   * truthy, or the `else` block when none was, runs (`BlockRule`) and
   * gives the outcome; without an `else` nothing more happens.  A failing
   * condition is the outcome.
   */
  ghost predicate IfRule(s: Stmt, env: Environment<Value>, fuel: nat, r: SRun)
    requires s.IfStatement?
    decreases fuel, 3
  {
    && r.trace.IfParts?
    && var conditions := r.trace.conditions;
       && SelectRule(s, env, fuel, r.pre, conditions)
       && var mid := Last(conditions).post;
          var c := Last(conditions).out;
          if !c.Done? then r.trace.block.None? && r.out == c.PropagateFailure() && r.post == mid
          else
            var body := if IsTruthy(c.value) then Some(BranchBody(s, |conditions| - 1)) else s.elseBody;
            if body.None? then r.trace.block.None? && r.out == Done(Normal) && r.post == mid
            else
              && r.trace.block.Some?
              && var b := r.trace.block.value;
                 b.pre == mid && BlockRule(body.value, env, fuel, b) && r.post == b.post && r.out == b.out
  }

  /**
   * A block: a scope that did not exist, enclosed by `env` and empty,
   * and the statements run in it in order.
   */
  ghost predicate BlockRule(stmts: seq<Stmt>, env: Environment<Value>, fuel: nat, b: BlockRun)
    decreases fuel, 2
  {
    && b.scope !in b.pre.scopes && b.scope.Valid() && b.scope.parent == env
    && var start := b.pre.(scopes := b.pre.scopes[b.scope := map[]]);
       && SeqRule(stmts, b.scope, fuel, start, b.body)
       && b.post == StmtsEnd(start, b.body)
       && b.out == SeqOutcome(b.body)
  }

  /**
   * `while`: rounds (`RoundRule`) from `pre`, each from the state the one
   * before left.  Every round but the last ran the body, which finished
   * normally; the last one ran no body or one that did not finish
   * normally, and gives the outcome.  Round k may run the body only for
   * k below `fuel`.
   */
  ghost predicate WhileRule(s: Stmt, env: Environment<Value>, fuel: nat, r: SRun)
    requires s.WhileStatement?
    decreases fuel, 4
  {
    && r.trace.WhileParts?
    && var rounds := r.trace.rounds;
       && |rounds| > 0
       && RoundsChained(r.pre, rounds)
       && (forall k | 0 <= k < |rounds| :: RoundRule(s, env, fuel, k < fuel, rounds[k]))
       && (forall k | 0 <= k < |rounds| - 1 :: rounds[k].block.Some? && rounds[k].out == Done(Normal))
       && (Last(rounds).block.None? || Last(rounds).out != Done(Normal))
       && r.out == Last(rounds).out && r.post == Last(rounds).post
  }

  /**
   * One round of a `while`: the condition; a failing one is the outcome
   * and a falsy one ends the loop normally; a truthy one runs the body
   * (`BlockRule`), whose outcome is the round's, unless `mayRun` is false,
   * which leaves the outcome open.
   */
  ghost predicate RoundRule(s: Stmt, env: Environment<Value>, fuel: nat, mayRun: bool, rr: RoundRun)
    requires s.WhileStatement?
    decreases fuel, 3
  {
    && rr.condition.pre == rr.pre && EvalRule(s.condition, env, fuel, rr.condition)
    && var c := rr.condition.out;
       var mid := rr.condition.post;
       if !c.Done? then rr.block.None? && rr.out == c.PropagateFailure() && rr.post == mid
       else if !IsTruthy(c.value) then rr.block.None? && rr.out == Done(Normal) && rr.post == mid
       else if !mayRun then rr.block.None? && rr.out.Undetermined? && rr.post == mid
       else
         && rr.block.Some?
         && var b := rr.block.value;
            b.pre == mid && BlockRule(s.body, env, fuel, b) && rr.post == b.post && rr.out == b.out
  }

  // ---------------------------------------------------------------
  // Runs built one at a time
  // ---------------------------------------------------------------

  /** The first runs of `es` from `pre`: chained, each by `EvalRule`, all giving the values `vs`. */
  ghost predicate ValuesSoFar(es: seq<Expr>, env: Environment<Value>, fuel: nat, pre: State, runs: seq<ERun>,
                              vs: seq<Value>) {
    && |runs| == |vs| <= |es|
    && ExprsChained(pre, runs)
    && forall k | 0 <= k < |runs| :: EvalRule(es[k], env, fuel, runs[k]) && runs[k].out == Done(vs[k])
  }

  /** One more element evaluated to a value. */
  lemma ValueAdded(es: seq<Expr>, env: Environment<Value>, fuel: nat, pre: State, runs: seq<ERun>, vs: seq<Value>,
                   r: ERun)
    requires ValuesSoFar(es, env, fuel, pre, runs, vs) && |runs| < |es|
    requires r.pre == ExprsEnd(pre, runs) && EvalRule(es[|runs|], env, fuel, r) && r.out.Done?
    ensures ExprsEnd(pre, runs + [r]) == r.post
    ensures ValuesSoFar(es, env, fuel, pre, runs + [r], vs + [r.out.value])
  {
  }

  /** One more element evaluated without a value: the failure that ends `EvalAllRule`. */
  lemma ValueFails(es: seq<Expr>, env: Environment<Value>, fuel: nat, pre: State, runs: seq<ERun>, vs: seq<Value>,
                   r: ERun)
    requires ValuesSoFar(es, env, fuel, pre, runs, vs) && |runs| < |es|
    requires r.pre == ExprsEnd(pre, runs) && EvalRule(es[|runs|], env, fuel, r) && !r.out.Done?
    ensures ExprsEnd(pre, runs + [r]) == r.post
    ensures EvalAllRule(es, env, fuel, pre, runs + [r], r.out.PropagateFailure())
  {
  }

  /** Every element gave a value: `EvalAllRule` with all of them. */
  lemma ValuesComplete(es: seq<Expr>, env: Environment<Value>, fuel: nat, pre: State, runs: seq<ERun>, vs: seq<Value>)
    requires ValuesSoFar(es, env, fuel, pre, runs, vs) && |runs| == |es|
    ensures EvalAllRule(es, env, fuel, pre, runs, Done(vs))
  {
  }

  /** The first conditions of an `if` from `pre`: chained, each by `EvalRule`, all falsy. */
  ghost predicate FalsySoFar(s: Stmt, env: Environment<Value>, fuel: nat, pre: State, conditions: seq<ERun>)
    requires s.IfStatement?
  {
    && |conditions| <= |s.elifClauses| + 1
    && ExprsChained(pre, conditions)
    && forall k | 0 <= k < |conditions| ::
         EvalRule(BranchCondition(s, k), env, fuel, conditions[k])
         && conditions[k].out.Done? && !IsTruthy(conditions[k].out.value)
  }

  /** One more condition evaluated: another falsy one, or the one that ends `SelectRule`. */
  lemma ConditionAdded(s: Stmt, env: Environment<Value>, fuel: nat, pre: State, conditions: seq<ERun>, c: ERun)
    requires s.IfStatement? && FalsySoFar(s, env, fuel, pre, conditions) && |conditions| <= |s.elifClauses|
    requires c.pre == ExprsEnd(pre, conditions) && EvalRule(BranchCondition(s, |conditions|), env, fuel, c)
    ensures c.out.Done? && !IsTruthy(c.out.value) ==> FalsySoFar(s, env, fuel, pre, conditions + [c])
    ensures !c.out.Done? || IsTruthy(c.out.value) ==> SelectRule(s, env, fuel, pre, conditions + [c])
  {
  }

  /** Every condition was falsy: `SelectRule` with all of them. */
  lemma NoneTruthy(s: Stmt, env: Environment<Value>, fuel: nat, pre: State, conditions: seq<ERun>)
    requires s.IfStatement? && FalsySoFar(s, env, fuel, pre, conditions) && |conditions| == |s.elifClauses| + 1
    ensures SelectRule(s, env, fuel, pre, conditions)
  {
  }

  /** The first statements run from `pre`: chained, each by `ExecRule`, all finishing normally. */
  ghost predicate NormalSoFar(stmts: seq<Stmt>, env: Environment<Value>, fuel: nat, pre: State, runs: seq<SRun>) {
    && |runs| <= |stmts|
    && StmtsChained(pre, runs)
    && forall k | 0 <= k < |runs| :: ExecRule(stmts[k], env, fuel, runs[k]) && runs[k].out == Done(Normal)
  }

  /** One more statement run that finished normally. */
  lemma StmtAdded(stmts: seq<Stmt>, env: Environment<Value>, fuel: nat, pre: State, runs: seq<SRun>, r: SRun)
    requires NormalSoFar(stmts, env, fuel, pre, runs) && |runs| < |stmts|
    requires r.pre == StmtsEnd(pre, runs) && ExecRule(stmts[|runs|], env, fuel, r) && r.out == Done(Normal)
    ensures StmtsEnd(pre, runs + [r]) == r.post
    ensures NormalSoFar(stmts, env, fuel, pre, runs + [r])
  {
  }

  /** One more statement run that did not finish normally: it ends `SeqRule`, and its outcome is the list's. */
  lemma StmtEnds(stmts: seq<Stmt>, env: Environment<Value>, fuel: nat, pre: State, runs: seq<SRun>, r: SRun)
    requires NormalSoFar(stmts, env, fuel, pre, runs) && |runs| < |stmts|
    requires r.pre == StmtsEnd(pre, runs) && ExecRule(stmts[|runs|], env, fuel, r) && r.out != Done(Normal)
    ensures StmtsEnd(pre, runs + [r]) == r.post && SeqOutcome(runs + [r]) == r.out
    ensures SeqRule(stmts, env, fuel, pre, runs + [r])
  {
  }

  /** Every statement finished normally: `SeqRule` with all of them, ending normally. */
  lemma AllNormal(stmts: seq<Stmt>, env: Environment<Value>, fuel: nat, pre: State, runs: seq<SRun>)
    requires NormalSoFar(stmts, env, fuel, pre, runs) && |runs| == |stmts|
    ensures SeqRule(stmts, env, fuel, pre, runs) && SeqOutcome(runs) == Done(Normal)
  {
  }

  /** The first rounds of a `while` from `pre`: chained, each by `RoundRule`, each running a body that finished normally. */
  ghost predicate RoundsSoFar(s: Stmt, env: Environment<Value>, fuel: nat, pre: State, rounds: seq<RoundRun>)
    requires s.WhileStatement?
  {
    && |rounds| <= fuel
    && RoundsChained(pre, rounds)
    && forall k | 0 <= k < |rounds| ::
         RoundRule(s, env, fuel, k < fuel, rounds[k]) && rounds[k].block.Some? && rounds[k].out == Done(Normal)
  }

  /** One more round that ran its body normally. */
  lemma RoundAdded(s: Stmt, env: Environment<Value>, fuel: nat, pre: State, rounds: seq<RoundRun>, r: RoundRun)
    requires s.WhileStatement? && RoundsSoFar(s, env, fuel, pre, rounds)
    requires r.pre == (if rounds == [] then pre else Last(rounds).post)
    requires RoundRule(s, env, fuel, |rounds| < fuel, r)
    requires r.block.Some? && r.out == Done(Normal)
    ensures RoundsSoFar(s, env, fuel, pre, rounds + [r])
  {
  }

  /**
   * The round that ends a `while`: one whose body did not run, or did not
   * finish normally; the rounds so far and it are the loop's run.
   */
  lemma WhileEnds(s: Stmt, env: Environment<Value>, fuel: nat, pre: State, rounds: seq<RoundRun>, r: RoundRun)
    requires s.WhileStatement? && fuel > 0 && RoundsSoFar(s, env, fuel - 1, pre, rounds)
    requires r.pre == (if rounds == [] then pre else Last(rounds).post)
    requires RoundRule(s, env, fuel - 1, |rounds| < fuel - 1, r)
    requires r.block.None? || r.out != Done(Normal)
    ensures ExecRule(s, env, fuel, SRun(pre, r.post, r.out, WhileParts(rounds + [r])))
  {
  }

  // ---------------------------------------------------------------
  // What the rules promise
  // ---------------------------------------------------------------

  /**
   * After `let name = value` finishes, `name` reads back, from the same
   * scope, as the value its expression gave, and every other name reads
   * as it did once that expression had run.
   */
  lemma LetReadsValue(s: Stmt, env: Environment<Value>, fuel: nat, r: SRun, other: string, line: int, column: int)
    requires s.LetStatement? && fuel > 0 && ExecRule(s, env, fuel, r) && r.out == Done(Normal)
    ensures r.trace.ValuePart? && r.trace.value.out.Done? && env.Valid()
    ensures Variable(Chain(r.post, env), s.name, line, column) == Done(r.trace.value.out.value)
    ensures other != s.name ==>
              Variable(Chain(r.post, env), other, line, column) == Variable(Chain(r.trace.value.post, env), other, line, column)
  {
    assert LetRule(s, env, fuel - 1, r);
    var v := r.trace.value;
    LetReadsBack(Chain(v.post, env), s.name, v.out.value, other);
  }

  /**
   * A statement that does not finish normally ends the statements it is
   * among: nothing after it runs, and its outcome is theirs.  This is
   * how a `return` skips the rest of a function's body.
   */
  lemma FirstAbnormalEnds(stmts: seq<Stmt>, env: Environment<Value>, fuel: nat, pre: State, runs: seq<SRun>, k: nat)
    requires SeqRule(stmts, env, fuel, pre, runs) && k < |runs| && runs[k].out != Done(Normal)
    ensures k == |runs| - 1 && SeqOutcome(runs) == runs[k].out
    ensures forall j | 0 <= j < k :: runs[j].out == Done(Normal)
  {
    assert Last(runs) == runs[|runs| - 1];
  }

  /** A statement other than `return`, `if` and `while` never finishes by returning. */
  lemma SimpleNeverReturns(s: Stmt, env: Environment<Value>, fuel: nat, r: SRun)
    requires !MayReturn(s) && ExecRule(s, env, fuel, r)
    ensures !(r.out.Done? && r.out.value.Returning?)
  {
    if fuel > 0 {
      match s
      case LetStatement(_, _, _, _) =>
        assert LetRule(s, env, fuel - 1, r);
      case IndexAssignment(_, _, _, _, _) =>
        assert StoreRule(s, env, fuel - 1, r);
      case _ =>
    }
  }

  /** Statements none of which is `return`, `if` or `while` never finish by returning. */
  lemma NoReturnWithoutReturn(stmts: seq<Stmt>, env: Environment<Value>, fuel: nat, pre: State, runs: seq<SRun>)
    requires SeqRule(stmts, env, fuel, pre, runs)
    requires forall k | 0 <= k < |stmts| :: !MayReturn(stmts[k])
    ensures !(SeqOutcome(runs).Done? && SeqOutcome(runs).value.Returning?)
  {
    if runs != [] {
      SimpleNeverReturns(stmts[|runs| - 1], env, fuel, Last(runs));
    }
  }

  /**
   * `if` runs the first branch whose condition is truthy: every condition
   * before it was falsy, none after it was evaluated, and its block gives
   * the outcome and the final state.
   */
  lemma IfRunsFirstTruthy(s: Stmt, env: Environment<Value>, fuel: nat, r: SRun, k: nat)
    requires s.IfStatement? && fuel > 0 && ExecRule(s, env, fuel, r)
    requires r.trace.IfParts? && k < |r.trace.conditions|
    requires r.trace.conditions[k].out.Done? && IsTruthy(r.trace.conditions[k].out.value)
    ensures k == |r.trace.conditions| - 1 && k <= |s.elifClauses|
    ensures forall j | 0 <= j < k :: r.trace.conditions[j].out.Done? && !IsTruthy(r.trace.conditions[j].out.value)
    ensures r.trace.block.Some? && BlockRule(BranchBody(s, k), env, fuel - 1, r.trace.block.value)
    ensures r.out == r.trace.block.value.out && r.post == r.trace.block.value.post
  {
    assert IfRule(s, env, fuel - 1, r);
    var conditions := r.trace.conditions;
    assert SelectRule(s, env, fuel - 1, r.pre, conditions);
  }

  /**
   * When no condition of an `if` is truthy, all of them ran, and the
   * `else` block, if there is one, gives the outcome; without one the
   * statement finishes normally where the last condition left the state.
   */
  lemma IfRunsElse(s: Stmt, env: Environment<Value>, fuel: nat, r: SRun)
    requires s.IfStatement? && fuel > 0 && ExecRule(s, env, fuel, r) && r.trace.IfParts?
    requires forall j | 0 <= j < |r.trace.conditions| ::
               r.trace.conditions[j].out.Done? && !IsTruthy(r.trace.conditions[j].out.value)
    ensures |r.trace.conditions| == |s.elifClauses| + 1
    ensures s.elseBody.None? ==> r.out == Done(Normal) && r.post == Last(r.trace.conditions).post
    ensures s.elseBody.Some? ==>
              && r.trace.block.Some? && BlockRule(s.elseBody.value, env, fuel - 1, r.trace.block.value)
              && r.out == r.trace.block.value.out && r.post == r.trace.block.value.post
  {
    assert IfRule(s, env, fuel - 1, r);
    assert SelectRule(s, env, fuel - 1, r.pre, r.trace.conditions);
    assert Last(r.trace.conditions) == r.trace.conditions[|r.trace.conditions| - 1];
  }

  /**
   * `false and right` is false and leaves the state as it was: `right`
   * is never evaluated, so even an erroneous one (`1 / 0`) raises nothing.
   */
  lemma FalseAndShortCircuits(e: Expr, env: Environment<Value>, fuel: nat, r: ERun)
    requires e.BinaryOp? && e.operator == "and" && e.left.BoolLiteral? && !e.left.truth
    requires fuel > 1 && EvalRule(e, env, fuel, r)
    ensures r.out == Done(Bool(false)) && r.post == r.pre
    ensures r.trace.Operands? && |r.trace.runs| == 1
  {
    assert BinaryRule(e, env, fuel - 1, r);
    var left := r.trace.runs[0];
    assert EvalRule(e.left, env, fuel - 1, left);
    assert left.out == Done(Bool(false));
    assert Decides("and", Bool(false));
  }

  /** `true or right` is true without evaluating `right`. */
  lemma TrueOrShortCircuits(e: Expr, env: Environment<Value>, fuel: nat, r: ERun)
    requires e.BinaryOp? && e.operator == "or" && e.left.BoolLiteral? && e.left.truth
    requires fuel > 1 && EvalRule(e, env, fuel, r)
    ensures r.out == Done(Bool(true)) && r.post == r.pre
    ensures r.trace.Operands? && |r.trace.runs| == 1
  {
    assert BinaryRule(e, env, fuel - 1, r);
    var left := r.trace.runs[0];
    assert EvalRule(e.left, env, fuel - 1, left);
    assert left.out == Done(Bool(true));
    assert Decides("or", Bool(true));
  }

  /** `while false do ... end` finishes normally after one round that ran no body, and changes nothing. */
  lemma WhileFalseSkips(s: Stmt, env: Environment<Value>, fuel: nat, r: SRun)
    requires s.WhileStatement? && s.condition.BoolLiteral? && !s.condition.truth
    requires fuel > 1 && ExecRule(s, env, fuel, r)
    ensures r.trace.WhileParts? && |r.trace.rounds| == 1 && r.trace.rounds[0].block.None?
    ensures r.out == Done(Normal) && r.post == r.pre
  {
    assert WhileRule(s, env, fuel - 1, r);
    var rounds := r.trace.rounds;
    assert RoundRule(s, env, fuel - 1, 0 < fuel - 1, rounds[0]);
    assert EvalRule(s.condition, env, fuel - 1, rounds[0].condition);
    assert rounds[0].condition.out == Done(Bool(false)) && rounds[0].block.None?;
  }

  class Interpreter {
    /** The lines printed so far, oldest first. */
    var output: seq<string>
    const globals: Environment<Value>
    /** The number of user-function calls in progress (see `DepthKept`). */
    var callDepth: int
    /** The contents of every list made so far; a list value is an address here. */
    var lists: Store
    /** The scopes made so far. */
    ghost var Envs: set<Environment<Value>>

    /** The interpreter's state as a value. */
    ghost function Snap(): State
      reads this, Envs
    {
      State(map e | e in Envs :: e.values, lists, output, callDepth)
    }

    /** A value refers only to lists and scopes that exist, and a built-in is one of those registered. */
    ghost predicate Owned(v: Value)
      reads this
    {
      && (v.List? ==> v.ref < |lists|)
      && (v.Function? ==> v.closure in Envs)
      && (v.Builtin? ==> v in BUILTINS)
    }

    ghost predicate Valid()
      reads this, Envs
    {
      && globals in Envs
      && callDepth <= MAX_CALL_DEPTH
      && (forall e | e in Envs :: e.Valid() && e.Ancestors <= Envs)
      && (forall e, k | e in Envs && k in e.values :: Owned(e.values[k]))
      && (forall r, i | 0 <= r < |lists| && 0 <= i < |lists[r]| :: Owned(lists[r][i]))
    }

    /** Scopes and lists are only ever added, new scopes are fresh, and printed lines are never taken back. */
    twostate predicate Grown()
      reads this
    {
      && old(Envs) <= Envs && fresh(Envs - old(Envs))
      && |old(lists)| <= |lists|
      && old(output) <= output
    }

    /**
     * The call depth is restored on every path but one: when a call is one
     * too many, the counter is set to 0 and each pending call then takes
     * one off as the error passes, leaving it exactly 1000 lower.
     */
    twostate predicate DepthKept<T>(new o: Outcome<T>)
      reads this
    {
      || callDepth == old(callDepth)
      || (o.Raised? && IsDepthError(o.error) && callDepth == old(callDepth) - MAX_CALL_DEPTH)
    }

    /** The scopes visible from a scope, read from the objects, are those the state records. */
    lemma {:induction false} ChainIsScopes(env: Environment<Value>)
      requires Valid() && env in Envs
      ensures Chain(Snap(), env) == env.Scopes()
      decreases env.depth
    {
      if env.parent != null {
        ChainIsScopes(env.parent);
      }
    }

    /** A change to the bindings of `env` alone is a change to its entry in the state. */
    twostate lemma ScopeChanged(env: Environment<Value>)
      requires unchanged(this) && env in Envs
      requires forall e | e in Envs && e != env :: unchanged(e)
      ensures Snap() == old(Snap()).(scopes := old(Snap()).scopes[env := env.values])
    {
    }

    /** A fresh interpreter: a global scope holding the built-ins, no lists, nothing printed, no call in progress. */
    constructor ()
      ensures Valid() && output == [] && callDepth == 0 && lists == []
      ensures globals.parent == null && Envs == {globals}
      ensures globals.values == DefineAll(map[], BUILTIN_NAMES, BUILTINS)
    {
      var g := new Environment<Value>(null);
      RegisterBuiltins(g);
      BuiltinNames();
      assert forall k | k in g.values :: g.values[k] in BUILTINS;
      globals := g;
      output := [];
      callDepth := 0;
      lists := [];
      Envs := {g};
    }

    // ---------------------------------------------------------------
    // Changes to scopes, lists and output
    // ---------------------------------------------------------------

    /** A new empty scope enclosed by `parent`. */
    method NewScope(parent: Environment<Value>) returns (child: Environment<Value>)
      requires Valid() && parent in Envs
      modifies this
      ensures Valid() && Grown() && fresh(child) && Envs == old(Envs) + {child}
      ensures child.Valid() && child.parent == parent && child.values == map[] && child !in old(Snap()).scopes
      ensures Snap() == old(Snap()).(scopes := old(Snap()).scopes[child := map[]])
    {
      child := new Environment(parent);
      Envs := Envs + {child};
      assert Snap().scopes == old(Snap()).scopes[child := map[]];
    }

    /** A new list holding `items`, at the next free address. */
    method NewList(items: seq<Value>) returns (ref: nat)
      requires Valid() && forall i | 0 <= i < |items| :: Owned(items[i])
      modifies this
      ensures Valid() && Grown() && Envs == old(Envs)
      ensures ref == |old(lists)|
      ensures Snap() == old(Snap()).(lists := old(lists) + [items])
    {
      ref := |lists|;
      lists := lists + [items];
    }

    /** `define`: binds `name` in `env` itself. */
    method DefineIn(env: Environment<Value>, name: string, v: Value)
      requires Valid() && env in Envs && Owned(v)
      modifies env
      ensures Valid()
      ensures Snap() == old(Snap()).(scopes := old(Snap()).scopes[env := old(env.values)[name := v]])
    {
      env.Define(name, v);
    }

    /** Binds each parameter to its argument in a call's new scope. */
    method BindParams(env: Environment<Value>, params: seq<string>, args: seq<Value>)
      requires Valid() && env in Envs && |params| == |args|
      requires forall i | 0 <= i < |args| :: Owned(args[i])
      modifies env
      ensures Valid()
      ensures Snap() == old(Snap()).(scopes := old(Snap()).scopes[env := DefineAll(old(env.values), params, args)])
    {
      for i := 0 to |params|
        invariant Valid()
        invariant env.values == DefineAll(old(env.values), params[..i], args[..i])
      {
        env.Define(params[i], args[i]);
        assert params[..i + 1][..i] == params[..i] && args[..i + 1][..i] == args[..i];
      }
      assert params[..|params|] == params && args[..|args|] == args;
      ScopeChanged(env);
    }

    /** `let name = v`: updates the nearest scope binding `name`, or else defines it in `env`. */
    method LetIn(env: Environment<Value>, name: string, v: Value)
      requires Valid() && env in Envs && Owned(v)
      modifies env.Repr()
      ensures Valid() && LetState(old(Snap()), env, name, v, Snap())
    {
      if env.Has(name) {
        AssignIn(env, name, v);
      } else {
        BindIn(env, name, v);
      }
    }

    /** `let` of a name some visible scope binds: that scope's binding is replaced. */
    method AssignIn(env: Environment<Value>, name: string, v: Value)
      requires Valid() && env in Envs && Owned(v) && env.Has(name)
      modifies env.Repr()
      ensures Valid() && LetState(old(Snap()), env, name, v, Snap())
    {
      ChainIsScopes(env);
      var _ := env.Set(name, v);
      assert forall e | e in Envs :: e.values == old(e.values) || e.values == old(e.values)[name := v];
      ChainIsScopes(env);
    }

    /** `let` of a name no visible scope binds: `env` itself gains it. */
    method BindIn(env: Environment<Value>, name: string, v: Value)
      requires Valid() && env in Envs && Owned(v) && !env.Has(name)
      modifies env
      ensures Valid() && LetState(old(Snap()), env, name, v, Snap())
    {
      ChainIsScopes(env);
      env.Define(name, v);
      ChainIsScopes(env);
    }

    /** `lists[ref][i] = v`. */
    method StoreItem(ref: nat, i: nat, v: Value)
      requires Valid() && ref < |lists| && i < |lists[ref]| && Owned(v)
      modifies this
      ensures Valid() && Grown() && Envs == old(Envs)
      ensures Snap() == old(Snap()).(lists := old(lists)[ref := old(lists)[ref][i := v]])
    {
      lists := lists[ref := lists[ref][i := v]];
    }

    /** `append(l, v)` on the list at `ref`. */
    method AppendItem(ref: nat, v: Value)
      requires Valid() && ref < |lists| && Owned(v)
      modifies this
      ensures Valid() && Grown() && Envs == old(Envs)
      ensures Snap() == old(Snap()).(lists := old(lists)[ref := old(lists)[ref] + [v]])
    {
      lists := lists[ref := lists[ref] + [v]];
    }

    /**
     * One more call in progress: over 1000 the count is reset to 0 and
     * `entered` is false.
     */
    method Enter() returns (entered: bool)
      requires Valid()
      modifies this
      ensures Valid() && Grown() && Envs == old(Envs)
      ensures entered <==> old(callDepth) < MAX_CALL_DEPTH
      ensures Snap() == old(Snap()).(depth := if entered then old(callDepth) + 1 else 0)
    {
      callDepth := callDepth + 1;
      entered := callDepth <= MAX_CALL_DEPTH;
      if !entered {
        callDepth := 0;
      }
    }

    /** A call is over. */
    method Leave()
      requires Valid()
      modifies this
      ensures Valid() && Grown() && Envs == old(Envs)
      ensures Snap() == old(Snap()).(depth := old(callDepth) - 1)
    {
      callDepth := callDepth - 1;
    }

    /** Writes one line of output. */
    method Emit(line: string)
      requires Valid()
      modifies this
      ensures Valid() && Grown() && Envs == old(Envs)
      ensures Snap() == old(Snap()).(output := old(output) + [line])
    {
      output := output + [line];
    }

    /** A variable's value exists, since every scope holds only values that do. */
    lemma {:induction false} LookupOwned(env: Environment<Value>, name: string)
      requires Valid() && env in Envs
      ensures env.Get(name).Some? ==> Owned(env.Get(name).value)
      decreases env.depth
    {
      if name !in env.values && env.parent != null {
        LookupOwned(env.parent, name);
      }
    }

    // ---------------------------------------------------------------
    // Built-in functions
    // ---------------------------------------------------------------

    /** Runs a built-in on arguments of the count it expects. */
    method CallBuiltin(f: Value, args: seq<Value>, line: int, column: int) returns (o: Outcome<Value>)
      requires Valid() && f in BUILTINS && CheckArity(f.name, f.arity, |args|, line, column).Ok?
      requires forall i | 0 <= i < |args| :: Owned(args[i])
      modifies this
      ensures Valid() && Grown() && Envs == old(Envs) && callDepth == old(callDepth)
      ensures o.Done? ==> Owned(o.value)
      ensures BuiltinRule(f, args, line, column, old(Snap()), Snap(), o)
    {
      BuiltinNames();
      if f.name == "print" {
        var text := PrintLine(lists, args);
        if text.Some? {
          Emit(text.value);
          o := Done(Value.Nil);
        } else {
          o := Undetermined;
        }
      } else if f.name == "len" {
        o := Len(lists, args[0], line, column);
      } else if f.name == "append" {
        match AppendTarget(args[0], line, column)
        case Ok(ref) =>
          AppendItem(ref, args[1]);
          o := Done(Value.Nil);
        case Err(e) =>
          o := Raised(e);
      } else if f.name == "type" {
        o := Done(Str(TypeName(args[0])));
      } else if f.name == "str" {
        o := StrOf(lists, args[0]);
      } else if f.name == "num" {
        o := Num(lists, args[0], line, column);
      } else {
        // input: reading the console is outside the model
        o := Undetermined;
      }
    }

    // ---------------------------------------------------------------
    // Expressions
    // ---------------------------------------------------------------

    /** The value of `e` in `env`, by `EvalRule`; `trace` records the runs of its parts. */
    method Eval(e: Expr, env: Environment<Value>, fuel: nat) returns (o: Outcome<Value>, ghost trace: ETrace)
      requires Valid() && env in Envs
      modifies this, Envs
      ensures Valid() && Grown() && DepthKept(o)
      ensures o.Done? ==> Owned(o.value)
      ensures EvalRule(e, env, fuel, ERun(old(Snap()), Snap(), o, trace))
      decreases fuel, 1
    {
      trace := Leaf;
      if fuel == 0 {
        return Undetermined, trace;
      }
      match e
      case NumberLiteral(_, _, _) | StringLiteral(_, _, _) | BoolLiteral(_, _, _) | NilLiteral(_, _) =>
        o := Done(LiteralValue(e));
      case Identifier(_, _, _) =>
        o := EvalIdentifier(e, env);
      case ListLiteral(_, _, _) =>
        o, trace := EvalList(e, env, fuel);
      case UnaryOp(_, _, _, _) =>
        o, trace := EvalUnary(e, env, fuel);
      case BinaryOp(_, _, _, _, _) =>
        o, trace := EvalBinary(e, env, fuel);
      case FunctionCall(_, _, _, _) =>
        o, trace := EvalCall(e, env, fuel);
      case IndexAccess(_, _, _, _) =>
        o, trace := EvalIndex(e, env, fuel);
    }

    /** A variable: its binding in the nearest scope visible from `env` that has one, or an error. */
    method EvalIdentifier(e: Expr, env: Environment<Value>) returns (o: Outcome<Value>)
      requires e.Identifier? && Valid() && env in Envs
      ensures o == Variable(Chain(Snap(), env), e.name, e.line, e.column)
      ensures o.Done? ==> Owned(o.value)
    {
      LookupOwned(env, e.name);
      ChainIsScopes(env);
      var found := env.Get(e.name);
      if found.Some? {
        o := Done(found.value);
      } else {
        o := Raised(UndefinedVariable(e.name, e.line, e.column));
      }
    }

    /** The values of `es`, left to right, stopping at the first that fails (`EvalAllRule`). */
    method EvalAll(es: seq<Expr>, env: Environment<Value>, fuel: nat) returns (o: Outcome<seq<Value>>, ghost runs: seq<ERun>)
      requires Valid() && env in Envs
      modifies this, Envs
      ensures Valid() && Grown() && DepthKept(o)
      ensures o.Done? ==> forall i | 0 <= i < |o.value| :: Owned(o.value[i])
      ensures EvalAllRule(es, env, fuel, old(Snap()), runs, o) && Snap() == ExprsEnd(old(Snap()), runs)
      decreases fuel, 2
    {
      var vs: seq<Value> := [];
      runs := [];
      for i := 0 to |es|
        invariant Valid() && Grown() && callDepth == old(callDepth) && env in Envs
        invariant |runs| == i && ValuesSoFar(es, env, fuel, old(Snap()), runs, vs)
        invariant Snap() == ExprsEnd(old(Snap()), runs)
        invariant forall k | 0 <= k < i :: Owned(vs[k])
      {
        ghost var pre := Snap();
        var r;
        ghost var t;
        r, t := Eval(es[i], env, fuel);
        if !r.Done? {
          ValueFails(es, env, fuel, old(Snap()), runs, vs, ERun(pre, Snap(), r, t));
          return r.PropagateFailure(), runs + [ERun(pre, Snap(), r, t)];
        }
        ValueAdded(es, env, fuel, old(Snap()), runs, vs, ERun(pre, Snap(), r, t));
        runs := runs + [ERun(pre, Snap(), r, t)];
        vs := vs + [r.value];
      }
      ValuesComplete(es, env, fuel, old(Snap()), runs, vs);
      o := Done(vs);
    }

    /** `[e1, e2, ...]`: a new list of the elements' values (`ListRule`). */
    method EvalList(e: Expr, env: Environment<Value>, fuel: nat) returns (o: Outcome<Value>, ghost trace: ETrace)
      requires e.ListLiteral? && fuel > 0 && Valid() && env in Envs
      modifies this, Envs
      ensures Valid() && Grown() && DepthKept(o)
      ensures o.Done? ==> Owned(o.value)
      ensures EvalRule(e, env, fuel, ERun(old(Snap()), Snap(), o, trace))
      decreases fuel, 0
    {
      var items;
      ghost var runs;
      items, runs := EvalAll(e.elements, env, fuel - 1);
      trace := Elements(runs, items);
      if !items.Done? {
        return items.PropagateFailure(), trace;
      }
      var ref := NewList(items.value);
      o := Done(List(ref));
    }

    /** A unary operator applied to its operand's value (`UnaryRule`). */
    method EvalUnary(e: Expr, env: Environment<Value>, fuel: nat) returns (o: Outcome<Value>, ghost trace: ETrace)
      requires e.UnaryOp? && fuel > 0 && Valid() && env in Envs
      modifies this, Envs
      ensures Valid() && Grown() && DepthKept(o)
      ensures o.Done? ==> Owned(o.value)
      ensures EvalRule(e, env, fuel, ERun(old(Snap()), Snap(), o, trace))
      decreases fuel, 0
    {
      ghost var pre := Snap();
      var v;
      ghost var t;
      v, t := Eval(e.operand, env, fuel - 1);
      trace := Operands([ERun(pre, Snap(), v, t)]);
      if !v.Done? {
        return v, trace;
      }
      o := Unary(lists, e.operator, v.value, e.line, e.column);
    }

    /** A binary operator, its operands evaluated left first (`BinaryRule`). */
    method EvalBinary(e: Expr, env: Environment<Value>, fuel: nat) returns (o: Outcome<Value>, ghost trace: ETrace)
      requires e.BinaryOp? && fuel > 0 && Valid() && env in Envs
      modifies this, Envs
      ensures Valid() && Grown() && DepthKept(o)
      ensures o.Done? ==> Owned(o.value)
      ensures EvalRule(e, env, fuel, ERun(old(Snap()), Snap(), o, trace))
      decreases fuel, 0
    {
      ghost var pre := Snap();
      var l;
      ghost var t;
      l, t := Eval(e.left, env, fuel - 1);
      ghost var left := ERun(pre, Snap(), l, t);
      trace := Operands([left]);
      if !l.Done? {
        return l, trace;
      }
      if (e.operator == "and" || e.operator == "or") && Decides(e.operator, l.value) {
        return l, trace;
      }
      ghost var mid := Snap();
      var r;
      r, t := Eval(e.right, env, fuel - 1);
      trace := Operands([left, ERun(mid, Snap(), r, t)]);
      if e.operator == "and" || e.operator == "or" || !r.Done? {
        return r, trace;
      }
      o := Binary(lists, e.operator, l.value, r.value, e.line, e.column);
    }

    /** `obj[index]`, both operands evaluated first (`IndexRule`). */
    method EvalIndex(e: Expr, env: Environment<Value>, fuel: nat) returns (o: Outcome<Value>, ghost trace: ETrace)
      requires e.IndexAccess? && fuel > 0 && Valid() && env in Envs
      modifies this, Envs
      ensures Valid() && Grown() && DepthKept(o)
      ensures o.Done? ==> Owned(o.value)
      ensures EvalRule(e, env, fuel, ERun(old(Snap()), Snap(), o, trace))
      decreases fuel, 0
    {
      ghost var pre := Snap();
      var target;
      ghost var t;
      target, t := Eval(e.obj, env, fuel - 1);
      ghost var obj := ERun(pre, Snap(), target, t);
      trace := Operands([obj]);
      if !target.Done? {
        return target, trace;
      }
      ghost var mid := Snap();
      var i;
      i, t := Eval(e.index, env, fuel - 1);
      trace := Operands([obj, ERun(mid, Snap(), i, t)]);
      if !i.Done? {
        return i, trace;
      }
      o := ReadIndex(lists, target.value, i.value, e.line, e.column);
    }

    /** A call: the callee, then the arguments left to right, then `Apply` (`CallRule`). */
    method EvalCall(e: Expr, env: Environment<Value>, fuel: nat) returns (o: Outcome<Value>, ghost trace: ETrace)
      requires e.FunctionCall? && fuel > 0 && Valid() && env in Envs
      modifies this, Envs
      ensures Valid() && Grown() && DepthKept(o)
      ensures o.Done? ==> Owned(o.value)
      ensures EvalRule(e, env, fuel, ERun(old(Snap()), Snap(), o, trace))
      decreases fuel, 0
    {
      ghost var pre := Snap();
      var c;
      ghost var t;
      c, t := Eval(e.callee, env, fuel - 1);
      ghost var callee := ERun(pre, Snap(), c, t);
      if !c.Done? {
        return c, CallTrace(callee, [], Undetermined, None);
      }
      ghost var args, argValues, invocation;
      o, args, argValues, invocation := CallWith(e, env, fuel - 1, c.value);
      trace := CallTrace(callee, args, argValues, invocation);
    }

    /** A call once its callee gave `f` (`ArgumentsRule`): the arguments, then `f` applied to them. */
    method CallWith(e: Expr, env: Environment<Value>, fuel: nat, f: Value)
      returns (o: Outcome<Value>, ghost args: seq<ERun>, ghost argValues: Outcome<seq<Value>>,
               ghost invocation: Option<Invocation>)
      requires e.FunctionCall? && Valid() && env in Envs && Owned(f)
      modifies this, Envs
      ensures Valid() && Grown() && DepthKept(o)
      ensures o.Done? ==> Owned(o.value)
      ensures ArgumentsRule(e, env, fuel, f, old(Snap()), Snap(), o, args, argValues, invocation)
      decreases fuel, 6
    {
      var a;
      a, args := EvalAll(e.arguments, env, fuel);
      argValues := a;
      if !a.Done? {
        return a.PropagateFailure(), args, argValues, None;
      }
      o, invocation := Apply(f, a.value, e.line, e.column, fuel);
    }

    /**
     * Calls `f` on `args`: a built-in or user function after its argument
     * count is checked; any other value cannot be called (`ApplyRule`).
     */
    method Apply(f: Value, args: seq<Value>, line: int, column: int, fuel: nat)
      returns (o: Outcome<Value>, ghost invocation: Option<Invocation>)
      requires Valid() && Owned(f) && forall i | 0 <= i < |args| :: Owned(args[i])
      modifies this, Envs
      ensures Valid() && Grown() && DepthKept(o)
      ensures o.Done? ==> Owned(o.value)
      ensures ApplyRule(f, args, line, column, fuel, old(Snap()), Snap(), o, invocation)
      decreases fuel, 5
    {
      invocation := None;
      if f.Builtin? {
        var arity := CheckArity(f.name, f.arity, |args|, line, column);
        if arity.Err? {
          return Raised(arity.error), invocation;
        }
        o := CallBuiltin(f, args, line, column);
      } else if f.Function? {
        var arity := CheckArity(f.name, |f.params|, |args|, line, column);
        if arity.Err? {
          return Raised(arity.error), invocation;
        }
        o, invocation := CallFunction(f, args, line, column, fuel);
      } else {
        o := CannotCall(lists, f, line, column);
      }
    }

    /**
     * Calls a user function (`CallFunctionRule`): one more call in
     * progress, an error when that is more than 1000; then the body; and
     * the count goes back down however the body ends.
     */
    method CallFunction(f: Value, args: seq<Value>, line: int, column: int, fuel: nat)
      returns (o: Outcome<Value>, ghost invocation: Option<Invocation>)
      requires f.Function? && |args| == |f.params| && Valid() && f.closure in Envs
      requires forall i | 0 <= i < |args| :: Owned(args[i])
      modifies this, Envs
      ensures Valid() && Grown() && DepthKept(o)
      ensures o.Done? ==> Owned(o.value)
      ensures CallFunctionRule(f, args, line, column, fuel, old(Snap()), Snap(), o, invocation)
      decreases fuel, 4
    {
      var entered := Enter();
      if !entered {
        return Raised(DepthError(line, column)), None;
      }
      ghost var entry := Snap();
      var body;
      ghost var run;
      body, run := RunBody(f, args, fuel);
      ghost var exit := Snap();
      Leave();
      o := CallResult(body);
      invocation := Some(run);
      CallReturned(f, args, line, column, fuel, old(Snap()), entry, exit, Snap(), body, run);
    }

    /** The scope of a call: new, enclosed by the function's closure, each parameter bound to its argument. */
    method CallScope(f: Value, args: seq<Value>) returns (scope: Environment<Value>)
      requires f.Function? && |args| == |f.params| && Valid() && f.closure in Envs
      requires forall i | 0 <= i < |args| :: Owned(args[i])
      modifies this
      ensures Valid() && Grown() && fresh(scope) && Envs == old(Envs) + {scope}
      ensures scope.Valid() && scope.parent == f.closure && scope !in old(Snap()).scopes
      ensures Snap() == old(Snap()).(scopes := old(Snap()).scopes[scope := DefineAll(map[], f.params, args)])
    {
      ghost var before := Snap();
      scope := NewScope(f.closure);
      ghost var made := Snap();
      BindParams(scope, f.params, args);
      ghost var bound := DefineAll(map[], f.params, args);
      assert made.scopes[scope := bound] == before.scopes[scope := bound];
      assert Snap() == before.(scopes := before.scopes[scope := bound]);
    }

    /**
     * A user function's body, run in a new scope inside its closure with
     * each parameter bound to its argument (`BodyRule`).
     */
    method RunBody(f: Value, args: seq<Value>, fuel: nat) returns (o: Outcome<Completion>, ghost invocation: Invocation)
      requires f.Function? && |args| == |f.params| && Valid() && f.closure in Envs
      requires forall i | 0 <= i < |args| :: Owned(args[i])
      modifies this, Envs
      ensures Valid() && Grown() && DepthKept(o)
      ensures o.Done? && o.value.Returning? ==> Owned(o.value.value)
      ensures BodyRule(f, args, fuel, old(Snap()), Snap(), o, invocation)
      decreases fuel, 3
    {
      var scope := CallScope(f, args);
      ghost var runs;
      o, runs := ExecSeq(f.body, scope, fuel);
      invocation := Invocation(scope, runs);
    }

    // ---------------------------------------------------------------
    // Statements
    // ---------------------------------------------------------------

    /** Runs `s` in `env`, by `ExecRule`; `trace` records the runs of its parts. */
    method ExecStmt(s: Stmt, env: Environment<Value>, fuel: nat) returns (o: Outcome<Completion>, ghost trace: STrace)
      requires Valid() && env in Envs
      modifies this, Envs
      ensures Valid() && Grown() && DepthKept(o)
      ensures o.Done? && o.value.Returning? ==> Owned(o.value.value)
      ensures ExecRule(s, env, fuel, SRun(old(Snap()), Snap(), o, trace))
      decreases fuel, 1
    {
      trace := NoParts;
      if fuel == 0 {
        return Undetermined, trace;
      }
      match s
      case LetStatement(_, _, _, _) =>
        o, trace := ExecLet(s, env, fuel);
      case IndexAssignment(_, _, _, _, _) =>
        o, trace := ExecIndexAssign(s, env, fuel);
      case IfStatement(_, _, _, _, _, _) =>
        o, trace := ExecIf(s, env, fuel);
      case WhileStatement(_, _, _, _) =>
        o, trace := ExecWhile(s, env, fuel);
      case FunctionDef(_, _, _, _, _) =>
        ExecFnDef(s, env);
        o := Done(Normal);
      case ReturnStatement(_, _, _) =>
        o, trace := ExecReturn(s, env, fuel);
      case ExpressionStatement(_, _, x) =>
        ghost var pre := Snap();
        var v;
        ghost var t;
        v, t := Eval(x, env, fuel - 1);
        o := if v.Done? then Done(Normal) else v.PropagateFailure();
        trace := ValuePart(ERun(pre, Snap(), v, t));
    }

    /** `fn name(params) do body end`: a function closing over `env`, bound in `env`'s own scope. */
    method ExecFnDef(s: Stmt, env: Environment<Value>)
      requires s.FunctionDef? && Valid() && env in Envs
      modifies env
      ensures Valid() && env in old(Snap()).scopes
      ensures Snap() == old(Snap()).(scopes := old(Snap()).scopes[env := old(env.values)[s.name := Function(s.name, s.params, s.body, env)]])
    {
      DefineIn(env, s.name, Function(s.name, s.params, s.body, env));
    }

    /** `return value`: the value, nil without one, carried out as `Returning` (`ReturnRule`). */
    method ExecReturn(s: Stmt, env: Environment<Value>, fuel: nat) returns (o: Outcome<Completion>, ghost trace: STrace)
      requires s.ReturnStatement? && fuel > 0 && Valid() && env in Envs
      modifies this, Envs
      ensures Valid() && Grown() && DepthKept(o)
      ensures o.Done? ==> o.value.Returning? && Owned(o.value.value)
      ensures ExecRule(s, env, fuel, SRun(old(Snap()), Snap(), o, trace))
      decreases fuel, 0
    {
      trace := NoParts;
      if s.result.None? {
        return Done(Returning(Value.Nil)), trace;
      }
      ghost var pre := Snap();
      var v;
      ghost var t;
      v, t := Eval(s.result.value, env, fuel - 1);
      o := if v.Done? then Done(Returning(v.value)) else v.PropagateFailure();
      trace := ValuePart(ERun(pre, Snap(), v, t));
    }

    /** `let name = value`: the value, then the binding (`LetRule`). */
    method ExecLet(s: Stmt, env: Environment<Value>, fuel: nat) returns (o: Outcome<Completion>, ghost trace: STrace)
      requires s.LetStatement? && fuel > 0 && Valid() && env in Envs
      modifies this, Envs
      ensures Valid() && Grown() && DepthKept(o)
      ensures o.Done? ==> o.value.Normal?
      ensures ExecRule(s, env, fuel, SRun(old(Snap()), Snap(), o, trace))
      decreases fuel, 0
    {
      ghost var pre := Snap();
      var v;
      ghost var t;
      v, t := Eval(s.value, env, fuel - 1);
      trace := ValuePart(ERun(pre, Snap(), v, t));
      if !v.Done? {
        return v.PropagateFailure(), trace;
      }
      LetIn(env, s.name, v.value);
      o := Done(Normal);
    }

    /** `obj[index] = value`: all three evaluated first, in that order, then the store (`StoreRule`). */
    method ExecIndexAssign(s: Stmt, env: Environment<Value>, fuel: nat) returns (o: Outcome<Completion>, ghost trace: STrace)
      requires s.IndexAssignment? && fuel > 0 && Valid() && env in Envs
      modifies this, Envs
      ensures Valid() && Grown() && DepthKept(o)
      ensures o.Done? ==> o.value.Normal?
      ensures ExecRule(s, env, fuel, SRun(old(Snap()), Snap(), o, trace))
      decreases fuel, 0
    {
      var operands;
      ghost var runs;
      operands, runs := EvalAll([s.obj, s.index, s.value], env, fuel - 1);
      trace := StoreParts(runs, operands);
      if !operands.Done? {
        return operands.PropagateFailure(), trace;
      }
      var vs := operands.value;
      o := StoreAt(vs[0], vs[1], vs[2], s.line, s.column);
    }

    /**
     * The store of `obj[index] = v` once all three are evaluated: `obj`
     * must be a list and the index within its current contents, and then
     * only that element of that list changes.
     */
    method StoreAt(obj: Value, index: Value, v: Value, line: int, column: int) returns (o: Outcome<Completion>)
      requires Valid() && Owned(obj) && Owned(v)
      modifies this
      ensures Valid() && Grown() && Envs == old(Envs)
      ensures var t := StoreTarget(old(lists), obj, index, line, column);
              if t.Done? then
                && obj.ref < |old(lists)| && o == Done(Normal)
                && Snap() == old(Snap()).(lists := old(lists)[obj.ref := old(lists)[obj.ref][t.value := v]])
              else o == t.PropagateFailure() && Snap() == old(Snap())
    {
      var t := StoreTarget(lists, obj, index, line, column);
      if !t.Done? {
        return t.PropagateFailure();
      }
      StoreItem(obj.ref, t.value, v);
      o := Done(Normal);
    }

    /**
     * The choice an `if` makes (`SelectRule`): its conditions, the `if`'s
     * then each `elif`'s, are evaluated in order until one is truthy.
     * The result is that branch's number (see `BranchBody`), or one past
     * the last `elif` when none is truthy.
     */
    method SelectBranch(s: Stmt, env: Environment<Value>, fuel: nat) returns (o: Outcome<nat>, ghost conditions: seq<ERun>)
      requires s.IfStatement? && Valid() && env in Envs
      modifies this, Envs
      ensures Valid() && Grown() && DepthKept(o)
      ensures SelectRule(s, env, fuel, old(Snap()), conditions) && Snap() == Last(conditions).post
      ensures var c := Last(conditions).out;
              o == if !c.Done? then c.PropagateFailure()
                   else if IsTruthy(c.value) then Done(|conditions| - 1)
                   else Done(|conditions|)
      decreases fuel, 2
    {
      conditions := [];
      for k := 0 to |s.elifClauses| + 1
        invariant Valid() && Grown() && callDepth == old(callDepth) && env in Envs
        invariant |conditions| == k && FalsySoFar(s, env, fuel, old(Snap()), conditions)
        invariant Snap() == ExprsEnd(old(Snap()), conditions)
      {
        ghost var pre := Snap();
        var c;
        ghost var t;
        c, t := Eval(BranchCondition(s, k), env, fuel);
        ConditionAdded(s, env, fuel, old(Snap()), conditions, ERun(pre, Snap(), c, t));
        conditions := conditions + [ERun(pre, Snap(), c, t)];
        if !c.Done? {
          return c.PropagateFailure(), conditions;
        }
        if IsTruthy(c.value) {
          return Done(k), conditions;
        }
      }
      NoneTruthy(s, env, fuel, old(Snap()), conditions);
      o := Done(|s.elifClauses| + 1);
    }

    /**
     * `if` (`IfRule`): the block of the first branch whose condition is
     * truthy runs, or else the `else` block if there is one.
     */
    method ExecIf(s: Stmt, env: Environment<Value>, fuel: nat) returns (o: Outcome<Completion>, ghost trace: STrace)
      requires s.IfStatement? && fuel > 0 && Valid() && env in Envs
      modifies this, Envs
      ensures Valid() && Grown() && DepthKept(o)
      ensures o.Done? && o.value.Returning? ==> Owned(o.value.value)
      ensures ExecRule(s, env, fuel, SRun(old(Snap()), Snap(), o, trace))
      decreases fuel, 0
    {
      var branch;
      ghost var conditions;
      branch, conditions := SelectBranch(s, env, fuel - 1);
      trace := IfParts(conditions, None);
      if !branch.Done? {
        return branch.PropagateFailure(), trace;
      }
      var body := if branch.value <= |s.elifClauses| then Some(BranchBody(s, branch.value)) else s.elseBody;
      if body.None? {
        return Done(Normal), trace;
      }
      o, trace := RunBranch(s, env, fuel - 1, old(Snap()), conditions, body.value);
    }

    /**
     * The block an `if` chose once its conditions ran (`IfRule`): the
     * first truthy branch's, or the `else` block when none was truthy.
     */
    method RunBranch(s: Stmt, env: Environment<Value>, fuel: nat, ghost pre: State, ghost conditions: seq<ERun>,
                     body: seq<Stmt>)
      returns (o: Outcome<Completion>, ghost trace: STrace)
      requires s.IfStatement? && Valid() && env in Envs
      requires SelectRule(s, env, fuel, pre, conditions) && Snap() == Last(conditions).post
      requires Last(conditions).out.Done?
      requires var c := Last(conditions).out.value;
               Some(body) == if IsTruthy(c) then Some(BranchBody(s, |conditions| - 1)) else s.elseBody
      modifies this, Envs
      ensures Valid() && Grown() && DepthKept(o)
      ensures o.Done? && o.value.Returning? ==> Owned(o.value.value)
      ensures ExecRule(s, env, fuel + 1, SRun(pre, Snap(), o, trace))
      decreases fuel, 5
    {
      ghost var mid := Snap();
      ghost var scope, runs;
      o, scope, runs := ExecBlock(body, env, fuel);
      trace := IfParts(conditions, Some(BlockRun(mid, Snap(), o, scope, runs)));
    }

    /**
     * `while` (`WhileRule`): the condition is evaluated before each
     * iteration, and the body runs in a fresh scope each time it is
     * truthy.  The model runs at most `fuel` iterations.
     */
    method ExecWhile(s: Stmt, env: Environment<Value>, fuel: nat) returns (o: Outcome<Completion>, ghost trace: STrace)
      requires s.WhileStatement? && fuel > 0 && Valid() && env in Envs
      modifies this, Envs
      ensures Valid() && Grown() && DepthKept(o)
      ensures o.Done? && o.value.Returning? ==> Owned(o.value.value)
      ensures ExecRule(s, env, fuel, SRun(old(Snap()), Snap(), o, trace))
      decreases fuel, 0
    {
      ghost var rounds, last;
      o, rounds, last := RunRounds(s, env, fuel - 1);
      WhileEnds(s, env, fuel, old(Snap()), rounds, last);
      trace := WhileParts(rounds + [last]);
    }

    /**
     * The rounds of a `while` up to the one that ends it (`RoundsSoFar`,
     * then a round whose body did not run or did not finish normally).
     */
    method RunRounds(s: Stmt, env: Environment<Value>, fuel: nat)
      returns (o: Outcome<Completion>, ghost rounds: seq<RoundRun>, ghost last: RoundRun)
      requires s.WhileStatement? && Valid() && env in Envs
      modifies this, Envs
      ensures Valid() && Grown() && DepthKept(o)
      ensures o.Done? && o.value.Returning? ==> Owned(o.value.value)
      ensures RoundsSoFar(s, env, fuel, old(Snap()), rounds)
      ensures last.pre == (if rounds == [] then old(Snap()) else Last(rounds).post)
      ensures RoundRule(s, env, fuel, |rounds| < fuel, last)
      ensures (last.block.None? || last.out != Done(Normal)) && last.post == Snap() && last.out == o
      decreases fuel, 5
    {
      rounds := [];
      var budget := fuel;
      while true
        invariant Valid() && Grown() && callDepth == old(callDepth) && env in Envs
        invariant budget + |rounds| == fuel && RoundsSoFar(s, env, fuel, old(Snap()), rounds)
        invariant Snap() == if rounds == [] then old(Snap()) else Last(rounds).post
        decreases budget
      {
        ghost var pre := Snap();
        var ran;
        ghost var c, block;
        o, ran, c, block := WhileRound(s, env, budget > 0, fuel);
        last := RoundRun(pre, Snap(), o, c, block);
        if !ran || o != Done(Normal) {
          return;
        }
        RoundAdded(s, env, fuel, old(Snap()), rounds, last);
        rounds := rounds + [last];
        budget := budget - 1;
      }
    }

    /**
     * One round of a `while` (`RoundRule`): the condition, then, if it is
     * truthy, the body in a fresh scope; `ran` tells whether the body ran.
     * When `mayRun` is false (the model's iteration bound is reached) a
     * truthy condition leaves the outcome open.
     */
    method WhileRound(s: Stmt, env: Environment<Value>, mayRun: bool, fuel: nat)
      returns (o: Outcome<Completion>, ran: bool, ghost c: ERun, ghost block: Option<BlockRun>)
      requires s.WhileStatement? && Valid() && env in Envs
      modifies this, Envs
      ensures Valid() && Grown() && DepthKept(o)
      ensures o.Done? && o.value.Returning? ==> Owned(o.value.value)
      ensures ran <==> block.Some?
      ensures RoundRule(s, env, fuel, mayRun, RoundRun(old(Snap()), Snap(), o, c, block))
      decreases fuel, 4
    {
      ghost var pre := Snap();
      var cond;
      ghost var t;
      cond, t := Eval(s.condition, env, fuel);
      c := ERun(pre, Snap(), cond, t);
      block := None;
      if !cond.Done? {
        return cond.PropagateFailure(), false, c, block;
      }
      if !IsTruthy(cond.value) {
        return Done(Normal), false, c, block;
      }
      if !mayRun {
        return Undetermined, false, c, block;
      }
      ghost var mid := Snap();
      ghost var scope, runs;
      o, scope, runs := ExecBlock(s.body, env, fuel);
      ran := true;
      block := Some(BlockRun(mid, Snap(), o, scope, runs));
    }

    /** A block: its statements run in order in a new scope enclosed by `env` (`BlockRule`). */
    method ExecBlock(stmts: seq<Stmt>, env: Environment<Value>, fuel: nat)
      returns (o: Outcome<Completion>, ghost scope: Environment<Value>, ghost runs: seq<SRun>)
      requires Valid() && env in Envs
      modifies this, Envs
      ensures Valid() && Grown() && DepthKept(o)
      ensures o.Done? && o.value.Returning? ==> Owned(o.value.value)
      ensures BlockRule(stmts, env, fuel, BlockRun(old(Snap()), Snap(), o, scope, runs))
      decreases fuel, 3
    {
      var child := NewScope(env);
      scope := child;
      o, runs := ExecSeq(stmts, child, fuel);
    }

    /**
     * Statements in order in `env`, stopping at the first that does not
     * finish normally (`SeqRule`); the outcome is that statement's.
     */
    method ExecSeq(stmts: seq<Stmt>, env: Environment<Value>, fuel: nat) returns (o: Outcome<Completion>, ghost runs: seq<SRun>)
      requires Valid() && env in Envs
      modifies this, Envs
      ensures Valid() && Grown() && DepthKept(o)
      ensures o.Done? && o.value.Returning? ==> Owned(o.value.value)
      ensures SeqRule(stmts, env, fuel, old(Snap()), runs) && Snap() == StmtsEnd(old(Snap()), runs)
      ensures o == SeqOutcome(runs)
      decreases fuel, 2
    {
      runs := [];
      for i := 0 to |stmts|
        invariant Valid() && Grown() && callDepth == old(callDepth) && env in Envs
        invariant |runs| == i && NormalSoFar(stmts, env, fuel, old(Snap()), runs)
        invariant Snap() == StmtsEnd(old(Snap()), runs)
      {
        ghost var pre := Snap();
        var r;
        ghost var t;
        r, t := ExecStmt(stmts[i], env, fuel);
        if r != Done(Normal) {
          StmtEnds(stmts, env, fuel, old(Snap()), runs, SRun(pre, Snap(), r, t));
          return r, runs + [SRun(pre, Snap(), r, t)];
        }
        StmtAdded(stmts, env, fuel, old(Snap()), runs, SRun(pre, Snap(), r, t));
        runs := runs + [SRun(pre, Snap(), r, t)];
      }
      AllNormal(stmts, env, fuel, old(Snap()), runs);
      o := Done(Normal);
    }

    /**
     * Runs a program's statements in order in the global scope.  A
     * `return` outside any function ends the run; the host lets its
     * control signal escape to the caller.
     */
    method Execute(program: Program, fuel: nat) returns (o: Outcome<Completion>, ghost runs: seq<SRun>)
      requires Valid()
      modifies this, Envs
      ensures Valid() && Grown() && DepthKept(o)
      ensures SeqRule(program.statements, globals, fuel, old(Snap()), runs) && Snap() == StmtsEnd(old(Snap()), runs)
      ensures o == SeqOutcome(runs)
    {
      o, runs := ExecSeq(program.statements, globals, fuel);
    }
  }
}
