# Ember in Dafny

A model of the core of Ember, a small dynamically typed scripting language
with `let` bindings, `if`/`elif`/`else`, `while` loops, first-class
functions with closures, lists and strings, and a handful of built-in
functions. Ember's pipeline is lexer → parser → tree-walking interpreter,
and the model follows it stage by stage.

- **Tokens and errors** (`tokens.dfy`, `errors.dfy`). The token types and
  the fifteen reserved words. Ember's three error kinds (syntax, runtime,
  type), each located at a line and a column, and the text each prints as.
- **Lexer** (`scanning.dfy`, `lexer.dfy`, `scanning_facts.dfy`). The lexer
  is a class with a cursor, a line, a column and a growing token list, like
  the source's. Each of its methods is proved against a pure scanning rule
  in `Scanning`: one rule per character class, `Step` for one token, `Run`
  for the loop, and `Lex` for the whole input. `ScanningFacts` proves what
  the token stream looks like and how positions, numbers, strings,
  operators and errors come out.
- **Parser** (`ast.dfy`, `grammar.dfy`, `parser.dfy`, `grammar_facts.dfy`).
  The syntax tree nodes are datatypes. The recursive-descent and Pratt
  parser is a class holding the token list and a position. Each of its
  methods is proved to return exactly what a pure grammar function in
  `Grammar` gives at the same position. `GrammarFacts` proves the shape of
  statements, the errors, and operator precedence and associativity.
- **Scopes** (`environment.dfy`). A scope is an object holding its bindings
  and a fixed link to its enclosing scope. `define`, `get`, `has` and `set`
  are proved against pure functions on the list of bindings seen from a
  scope, innermost first.
- **Values and built-ins** (`values.dfy`, `semantics.dfy`, `builtins.dfy`).
  Values are nil, booleans, numbers, strings, lists, built-ins and user
  functions. A list is an object shared by reference, as in the host.
  `Semantics` states the operators, truthiness, equality, indexing, `let`'s
  binding rule and the call checks as pure functions. `Builtins` does the
  same for `len`, `append`, `type`, `str`, `num` and `print`.
- **Interpreter** (`interpreter.dfy`). The interpreter is a class holding
  the global scope, the contents of every list, the printed output and the
  call-depth counter. Its whole state can be read as a value, a `State`:
  every scope's bindings, the lists, the output and the depth.
  - What each construct does is a rule relating the state before it to the
    state after it and its outcome (`EvalRule`, `ExecRule` and one rule
    per construct). The rule is stated through the runs of the
    construct's parts, each again a state before, a state after, an
    outcome and its own parts. So every operand, condition and value is
    tied to the evaluation that produced it, from the state the one before
    it left, down to literals and variables.
  - Each method returns, besides its outcome, a ghost record of those
    runs, and is proved to follow its construct's rule from the state it
    starts in to the state it leaves. Where a method loops, step lemmas
    (`ValueAdded`, `ConditionAdded`, `StmtAdded`, `RoundAdded`) carry the
    rule one part at a time.
  - Lemmas about the rules state what a reader of the host code would
    check: `let` reads back, `if` runs the first truthy branch,
    `false and x` and `true or x` never evaluate `x`, `while false`
    changes nothing, and a statement that does not finish normally (a
    `return` in particular) ends the statements it is among.
  - Every outcome is `Done(v)`, `Raised(error)` or `Undetermined`.
    `Undetermined` marks what the model leaves open: its fuel ran out, a
    number is not integral, or lists nest beyond the rendering bound.
  - Every method keeps the interpreter's invariant: every scope and list
    it can reach is tracked, and scopes and lists are only ever added.
  - A `return` travels up as a `Returning` completion rather than as an
    exception.
- **REPL continuation** (`repl.dfy`). The REPL counts `do` and `end` words
  to decide whether an entered line leaves a block open.

Where the code and its documentation disagree, the model follows the code:

- After a call-depth error, the depth counter is set to 0 and then lowered
  by one at each of the calls still unwinding. It is not restored to the
  depth before the call.
- The REPL's word count does not skip `do`, `end` or `#` inside string
  literals, although its docstring says it does.
- A string token's column is its end column less the length of the
  *decoded* text. So it is off for strings with escapes, and below 1 for
  some strings that span lines.

## Model

| member | source | states |
|---|---|---|
| Tokens.KeywordKind | ember/tokens.py:81-97 | a word gets a type other than IDENTIFIER exactly when it is one of the fifteen spellings `let` … `nil`, and then the type the table gives that spelling |
| Tokens.KeywordSpellings | ember/tokens.py:81-97 | the keyword table's keys are exactly the fifteen reserved words |
| Tokens.KeywordCount | ember/tokens.py:81-97 | the table has fifteen entries |
| Tokens.KeywordsInjective | ember/tokens.py:81-97 | no two keywords share a token type, and none maps to IDENTIFIER |
| Tokens.KeywordLookupExact | ember/lexer.py:240-254 | a word becomes a keyword token exactly when it is spelled like a keyword |
| Tokens.KeywordKindIsWord | ember/lexer.py:240-254 | a scanned word is never classified as a literal, operator or special token |
| Errors.Format | ember/errors.py:19-41 | the text is the position header `[line L, col C] `, then the kind's label, then `: ` and the message, each at its own place |
| Errors.FormatDistinguishesKinds | ember/errors.py:23-41 | errors of different kinds never print alike |
| Util.NatToString | ember/builtins.py:97-99 | the decimal text of a natural number is all digits, with no leading zero |
| Util.IntToString | ember/builtins.py:91-106 | the text is non-empty and starts with `-` exactly when the integer is negative |
| Util.DigitsValueOfNatToString | ember/builtins.py:55-62 | reading back a number's decimal text gives the number |
| Util.NatToStringInjective | ember/builtins.py:91-106 | distinct numbers print differently |
| Util.Join | ember/builtins.py:112-114 | no parts join to the empty text, one part to itself; with n parts the text is at least n - 1 separators long |
| Util.JoinAppend | ember/builtins.py:112-114 | joining one more part adds one separator and the part after what was joined, so no separator is dropped |
| Util.CountSnoc | ember/repl.py:82-88 | counting over one more element adds one exactly when it is the element counted |
| Scanning.LineCol | ember/lexer.py:136-144 | line and column are at least 1 (their meaning is in `ScanningFacts.LineIsNewlinesPlusOne`) |
| Scanning.DigitRun | ember/lexer.py:218-238 | the run from a position holds only digits and ends at a non-digit or at the end of input |
| Scanning.IdentRun | ember/lexer.py:240-254 | the run holds only letters, digits and underscores and ends at any other character or at the end of input |
| Scanning.CommentEnd | ember/lexer.py:70-73 | a comment holds no newline and ends just before the next newline, or at the end of input |
| Scanning.NumberEnd | ember/lexer.py:218-238 | a number is its digit run, extended past a `.` exactly when a digit follows the dot; every character of it but that dot is a digit, and it ends at a non-digit or at the end of input |
| Scanning.StringScan | ember/lexer.py:187-211 | a string body's scan stops at a closing quote, or at the end of input when the string is unterminated |
| Scanning.StringScanEscape | ember/lexer.py:198-205 | a backslash and the character after it decode as one unit, and scanning continues after both |
| Scanning.MakeToken | ember/lexer.py:166-173 | a token's column is its end column less its lexeme's length |
| Scanning.EmitNewline | ember/lexer.py:175-181 | a NEWLINE is emitted only after some token, and never twice in a row |
| Scanning.ReadString | ember/lexer.py:187-216 | a string read consumes at least its closing quote and stays within the input (its token and error are in `ScanningFacts`) |
| Scanning.ReadNumber | ember/lexer.py:218-238 | a number read consumes at least one character and stays within the input |
| Scanning.ReadIdentifier | ember/lexer.py:240-254 | a word read consumes at least one character and stays within the input |
| Scanning.Step | ember/lexer.py:57-127 | each step consumes at least one character and stays within the input, so the scanning loop ends |
| Scanning.ReadOperator | ember/lexer.py:91-127 | an operator read consumes one or two characters and stays within the input |
| Scanning.Run | ember/lexer.py:35-36 | a successful scan has consumed the whole input |
| Lexer.Lexer.Tokenize | ember/lexer.py:27-51 | the method's result is the tokenization rule `Lex` applied to the source |
| Lexer.Lexer.ScanToken | ember/lexer.py:57-127 | one call does exactly what the rule `Step` prescribes for the state |
| Lexer.Lexer.SkipComment | ember/lexer.py:70-73 | the cursor moves to the comment's end |
| Lexer.Lexer.ReadOperator | ember/lexer.py:91-127 | the method agrees with the rule `ReadOperator` |
| Lexer.Lexer.Advance | ember/lexer.py:136-144 | the cursor moves by one; a newline moves to the next line, column 1 |
| Lexer.Lexer.Peek | ember/lexer.py:146-149 | the current character, or NUL at the end |
| Lexer.Lexer.PeekNext | ember/lexer.py:151-154 | the character after the current one, or NUL past the end |
| Lexer.Lexer.Match | ember/lexer.py:156-160 | consumes the next character exactly when it is the expected one |
| Lexer.Lexer.AddToken | ember/lexer.py:166-173 | appends the token `MakeToken` builds at the cursor |
| Lexer.Lexer.EmitNewlineToken | ember/lexer.py:175-181 | the token list becomes `EmitNewline` of the old one |
| Lexer.Lexer.ReadString | ember/lexer.py:187-216 | the method agrees with the rule `ReadString` |
| Lexer.Lexer.ReadStringBody | ember/lexer.py:192-207 | the decoded text and stopping point are those of `StringScan` |
| Lexer.Lexer.ReadStringPiece | ember/lexer.py:193-206 | one character, or one escape sequence, is decoded as `StringScan` decodes it |
| Lexer.Lexer.ReadNumber | ember/lexer.py:218-238 | the method agrees with the rule `ReadNumber` |
| Lexer.Lexer.ReadNumberText | ember/lexer.py:222-229 | the cursor stops where `NumberEnd` says |
| Lexer.Lexer.EmitNumber | ember/lexer.py:231-238 | appends a NUMBER token carrying the lexeme's value |
| Lexer.Lexer.ReadDigits | ember/lexer.py:222-223 | the cursor moves to the end of the digit run |
| Lexer.Lexer.ReadIdentifier | ember/lexer.py:240-254 | the method agrees with the rule `ReadIdentifier` |
| ScanningFacts.LineIsNewlinesPlusOne | ember/lexer.py:136-144 | the line at any position is one plus the newlines before it |
| ScanningFacts.LineColAcrossLine | ember/lexer.py:136-144 | across text without a newline, the column grows by the text's length |
| ScanningFacts.StepKeepsRaw | ember/lexer.py:57-127 | each step keeps the stream free of EOF, of a leading NEWLINE and of doubled NEWLINEs |
| ScanningFacts.FinishShape | ember/lexer.py:40-50 | closing the stream adds a NEWLINE after a last ordinary token, then exactly one EOF |
| ScanningFacts.LexShape | ember/lexer.py:27-51 | every successful tokenization ends with its only EOF, does not start with a NEWLINE, never repeats a NEWLINE, and puts a NEWLINE before EOF when there are other tokens |
| ScanningFacts.SilentSourceLexesToEof | ember/lexer.py:61-73 | blank lines, spaces and comments alone lex to the single EOF token |
| ScanningFacts.NumberTextRoundTrip | ember/lexer.py:218-238 | a natural number's decimal text lexes to one NUMBER token carrying that number |
| ScanningFacts.DigitsLex | ember/lexer.py:218-238 | any text of digits alone lexes to one NUMBER token carrying their value, then NEWLINE and EOF just past it |
| ScanningFacts.FractionRoundTrip | ember/lexer.py:218-238 | the text `a.b` of two digit runs lexes to one NUMBER token carrying a + b / 10^|b|, then NEWLINE and EOF |
| ScanningFacts.ReadFraction | ember/lexer.py:224-238 | a number read over `a.b` takes the whole text as one NUMBER token at line 1, column 1 |
| ScanningFacts.FractionValue | ember/lexer.py:231-238 | the value of `a.b` is the integer part plus the fraction digits over the matching power of ten |
| ScanningFacts.DigitsLexAsOneNumber | ember/lexer.py:81-83 | a run of digits is scanned in one step as one NUMBER token |
| ScanningFacts.TwoCharOperatorWins | ember/lexer.py:91-102 | `==`, `!=`, `<=` and `>=` are one token, never their one-character prefix |
| ScanningFacts.UnexpectedCharacterPosition | ember/lexer.py:125-127 | a character no rule accepts is reported at its own line and column |
| ScanningFacts.UnterminatedStringPosition | ember/lexer.py:208-211 | an unterminated string is reported at its opening quote |
| ScanningFacts.PlainStringColumn | ember/lexer.py:213-216 | a one-line string without escapes gets its opening quote's column |
| ScanningFacts.MultiLineStringColumn | ember/lexer.py:213-216 | a string spanning two lines can get a column below 1 (as written) |
| ScanningFacts.EscapesDecoded | ember/lexer.py:198-205 | in any string, `\n`, `\t`, `\\` and `\"` decode to a newline, a tab, a backslash and a quote; any other escape keeps its backslash; scanning goes on after the escape |
| ScanningFacts.Escaped | ember/lexer.py:198-205 | escaping never shortens a text, and lengthens any text with a quote or backslash |
| ScanningFacts.EscapedRoundTrip | ember/lexer.py:187-216 | scanning the escaped form of any text, followed by a quote, gives back the text and stops at that quote |
| ScanningFacts.FinishAfterToken | ember/lexer.py:40-46 | after an ordinary last token, NEWLINE and then EOF are appended |
| ScanningFacts.NewlinesCollapse | ember/lexer.py:65-67 | `a`, three newlines, `b` lexes to IDENTIFIER NEWLINE IDENTIFIER NEWLINE EOF |
| Grammar.InfixPrecedence | ember/parser.py:42-70 | the binding power of each infix token; tokens that are not infix operators get the lowest |
| Grammar.Next | ember/parser.py:395-400 | advancing moves one token forward, except at EOF, which is never passed |
| Grammar.Consume | ember/parser.py:406-413 | a token of the expected kind is consumed; any other is an error with the caller's message at that token |
| Grammar.SkipNewlines | ember/parser.py:415-418 | the first position at or after the current one that is not a NEWLINE; everything skipped is a NEWLINE |
| Grammar.ExpectNewline | ember/parser.py:420-434 | a statement ends at a NEWLINE (consumed), or at EOF, `end`, `elif` or `else` (left in place); anything else is an error |
| Grammar.ProgramLoop | ember/parser.py:84-97 | the program loop never moves backwards and stays within the tokens (its shape is in `GrammarFacts.ProgramLoopShape`) |
| Grammar.BlockAt | ember/parser.py:243-253 | a block never moves backwards and stays within the tokens (its shape is in `GrammarFacts.BlockLoopShape`) |
| Grammar.StatementAt | ember/parser.py:103-115 | a statement is chosen by its first token; a parsed statement always advances |
| Grammar.LetAt | ember/parser.py:117-144 | a parsed `let` consumes at least one token and stays within the tokens |
| Grammar.IfAt | ember/parser.py:146-178 | a parsed `if` consumes at least one token and stays within the tokens |
| Grammar.WhileAt | ember/parser.py:180-192 | a parsed `while` consumes at least one token and stays within the tokens |
| Grammar.FnAt | ember/parser.py:194-218 | a parsed `fn` consumes at least one token and stays within the tokens |
| Grammar.ReturnAt | ember/parser.py:220-229 | a parsed `return` consumes at least one token and stays within the tokens |
| Grammar.ExprStatementAt | ember/parser.py:231-237 | an expression statement consumes at least one token and stays within the tokens |
| Grammar.ExprAt | ember/parser.py:259-270 | a parsed expression consumes at least one token and stays within the tokens |
| Grammar.InfixLoop | ember/parser.py:263-270 | the Pratt loop never moves backwards and stays within the tokens |
| Grammar.PrefixAt | ember/parser.py:272-335 | a prefix expression consumes at least one token and stays within the tokens |
| Grammar.UnaryAt | ember/parser.py:315-331 | a unary operation consumes at least one token and stays within the tokens |
| Grammar.InfixAt | ember/parser.py:337-373 | a call, index or binary operation consumes at least one token and stays within the tokens |
| Grammar.ListLiteralAt | ember/parser.py:375-385 | a list literal consumes at least one token and stays within the tokens |
| Grammar.ExprListAt | ember/parser.py:341-385 | an expression list never moves backwards and stays within the tokens |
| Parser.Parser.Parse | ember/parser.py:84-97 | the method's result is the grammar function `ProgramAt` on the tokens |
| Parser.Parser.ParseStatement | ember/parser.py:103-115 | agrees with `StatementAt` at the current position |
| Parser.Parser.ParseLet | ember/parser.py:117-144 | agrees with `LetAt` |
| Parser.Parser.ParseIf | ember/parser.py:146-178 | agrees with `IfAt` |
| Parser.Parser.ParseWhile | ember/parser.py:180-192 | agrees with `WhileAt` |
| Parser.Parser.ParseFn | ember/parser.py:194-218 | agrees with `FnAt` |
| Parser.Parser.ParseReturn | ember/parser.py:220-229 | agrees with `ReturnAt` |
| Parser.Parser.ParseExpressionStatement | ember/parser.py:231-237 | agrees with `ExprStatementAt` |
| Parser.Parser.ParseBlock | ember/parser.py:243-253 | agrees with `BlockAt` |
| Parser.Parser.ParseExpression | ember/parser.py:259-270 | agrees with `ExprAt` at the given precedence |
| Parser.Parser.ParsePrefix | ember/parser.py:272-335 | agrees with `PrefixAt` |
| Parser.Parser.ParseInfix | ember/parser.py:337-373 | agrees with `InfixAt` |
| Parser.Parser.ParseListLiteral | ember/parser.py:375-385 | agrees with `ListLiteralAt` |
| Parser.Parser.Current | ember/parser.py:391-393 | the token at the position |
| Parser.Parser.Advance | ember/parser.py:395-400 | returns the current token and moves to `Next` |
| Parser.Parser.Consume | ember/parser.py:406-413 | agrees with `Consume` |
| Parser.Parser.SkipNewlines | ember/parser.py:415-418 | moves to `SkipNewlines` |
| Parser.Parser.ExpectNewline | ember/parser.py:420-434 | agrees with `ExpectNewline` |
| GrammarFacts.StreamIsTerminated | ember/lexer.py:37-50 | a token list of the lexer's shape ends in EOF and every literal token carries a value of its kind |
| GrammarFacts.AtomPrefix | ember/parser.py:272-300 | a number, string, `true`, `false`, `nil` or identifier token is read as one node at that token's line and column, moving one token on |
| GrammarFacts.ExprFromPrefix | ember/parser.py:259-270 | an expression is its prefix part extended by the infix loop at the given precedence |
| GrammarFacts.LexedIsTerminated | ember/parser.py:391-400 | every token list the lexer produces ends in EOF, so the parser never reads past its input |
| GrammarFacts.ProgramShape | ember/parser.py:84-97 | a parsed program is the root node at line 1, column 1, and parsing stopped at EOF |
| GrammarFacts.EmptyProgram | ember/parser.py:84-97 | blank lines alone parse to the empty program |
| GrammarFacts.BlockLoopShape | ember/parser.py:243-253 | a block keeps its statements in order and stops only at `end`, `elif`, `else` or EOF, which it leaves in place |
| GrammarFacts.EmptyBlock | ember/parser.py:243-253 | a block whose first token closes it is empty |
| GrammarFacts.LetShape | ember/parser.py:117-144 | `let x = e` is a LetStatement named `x`, placed at `let` |
| GrammarFacts.IndexAssignmentShape | ember/parser.py:124-136 | `let x[i] = e` targets the identifier `x` at its own position |
| GrammarFacts.ReturnWithoutValue | ember/parser.py:220-229 | `return` at the end of a line returns no value |
| GrammarFacts.ReturnWithValue | ember/parser.py:220-229 | any other token after `return` starts the returned expression |
| GrammarFacts.ExpressionStatementShape | ember/parser.py:231-237 | a statement without a keyword is an expression statement at its expression |
| GrammarFacts.MissingNewline | ember/parser.py:420-434 | an expression statement followed by anything but a line end or a block closer is an error |
| GrammarFacts.ConsumeMismatch | ember/parser.py:406-413 | a mismatched token is reported with the message and the token found, at that token |
| GrammarFacts.MissingDo | ember/parser.py:180-192 | a missing `do` is reported at the token found instead |
| GrammarFacts.WhileBodyError | ember/parser.py:180-192 | a while statement fails with its body's error |
| GrammarFacts.IfBlockError | ember/parser.py:146-178 | an if statement fails with its first block's error |
| GrammarFacts.BodyMissingEnd | ember/parser.py:180-218 | a body not closed by `end` reports the missing `end` at the token found |
| GrammarFacts.InfixStops | ember/parser.py:262-270 | the loop stops at an operator binding no tighter than the current precedence |
| GrammarFacts.InfixContinues | ember/parser.py:262-270 | a tighter operator takes the left operand and parses its right operand at its own precedence |
| GrammarFacts.InfixLoopStop | ember/parser.py:263-270 | expression parsing never reads past a token that binds no tighter than the current precedence |
| GrammarFacts.AtomExpr | ember/parser.py:259-302 | an atom followed by a token binding no tighter than the current precedence is a whole expression |
| GrammarFacts.TighterOperatorGroupsRight | ember/parser.py:42-70 | `a op1 b op2 c` groups as `a op1 (b op2 c)` exactly when `op2` binds tighter |
| GrammarFacts.LooserOperatorGroupsLeft | ember/parser.py:42-70 | operators of equal or lower precedence group to the left |
| GrammarFacts.MinusBindsTighter | ember/parser.py:315-331 | unary minus binds tighter than every binary operator |
| GrammarFacts.NotTakesComparison | ember/parser.py:315-331 | `not a op b` negates the whole `a op b` for equality, comparison and arithmetic operators |
| GrammarFacts.NotInsideLogic | ember/parser.py:315-331 | in `not a and b` and `not a or b`, `not` negates `a` alone |
| GrammarFacts.UnexpectedToken | ember/parser.py:333-335 | a token that cannot start an expression is reported where it stands |
| GrammarFacts.EmptyCall | ember/parser.py:341-354 | `f()` is a call with no arguments, placed at `(` |
| GrammarFacts.TrailingCommaRejected | ember/parser.py:375-385 | `[a, ]` is a syntax error |
| Environments.Lookup | ember/environment.py:25-35 | a name is unbound exactly when no scope binds it; otherwise its value is from the nearest scope |
| Environments.Owner | ember/environment.py:37-48 | the nearest scope binding the name: no scope before it does |
| Environments.Bind | ember/environment.py:21-23 | defining changes only the innermost scope, where the name gets the value |
| Environments.LookupAfterAssign | ember/environment.py:37-48 | after `set`, the name reads back as the new value if it was bound at all |
| Environments.LookupOtherAfterAssign | ember/environment.py:37-48 | `set` leaves every other name as it was |
| Environments.AssignChangesOnlyOwner | ember/environment.py:37-48 | `set` changes only the nearest scope binding the name, and nothing when none does |
| Environments.LookupAfterBind | ember/environment.py:21-23 | a definition reads back at once, shadowing outer scopes |
| Environments.LookupOtherAfterBind | ember/environment.py:21-23 | a definition leaves every other name as it was |
| Environments.DefineAll | ember/builtins.py:125-126 | defining a list of names adds exactly those names and keeps other bindings |
| Environments.DefineAllBindsEach | ember/interpreter.py:340-344 | with distinct names, each ends up bound to its own value |
| Environments.Environment.constructor | ember/environment.py:17-19 | a new empty scope enclosed by the given parent |
| Environments.Environment.Define | ember/environment.py:21-23 | binds in this scope only: the chain becomes `Bind` of the old one |
| Environments.Environment.Get | ember/environment.py:25-35 | `get` is `Lookup` on the chain; None stands for the KeyError |
| Environments.Environment.Has | ember/environment.py:50-56 | `has` holds exactly when some scope of the chain binds the name |
| Environments.Environment.Set | ember/environment.py:37-48 | `set` reports whether the name was bound; the chain becomes `Assign` of the old one; no scope gains a binding |
| Environments.HasIffGet | ember/environment.py:25-56 | `has` holds exactly when `get` succeeds |
| Values.TypeName | ember/interpreter.py:413-428 | every value's type name is one of nil, bool, number, string, list, function |
| Values.Render | ember/builtins.py:91-106 | a string renders as itself |
| Values.RenderAll | ember/builtins.py:112-114 | one text per value, each that value's rendering |
| Values.Equal | ember/interpreter.py:404-411 | nil equals only nil |
| Values.RenderIntegralRoundTrip | ember/builtins.py:91-106 | an integral number prints as decimal digits that read back as the number |
| Values.RenderAllCons | ember/builtins.py:112-114 | rendering a sequence renders its first value, then the rest |
| Values.RenderEmptyList | ember/builtins.py:103-105 | an empty list prints as `[]` |
| Values.EqualSymmetric | ember/interpreter.py:404-411 | `==` does not depend on the order of its operands |
| Values.EqualReflexive | ember/interpreter.py:404-411 | every value equals itself, even a list containing itself |
| Values.LengthsDiffer | ember/interpreter.py:404-411 | lists of different lengths are unequal |
| Semantics.Truncate | ember/interpreter.py:365 | `int(x)` truncates toward zero |
| Semantics.FloorModRange | ember/interpreter.py:296 | the remainder has the divisor's sign and differs from the dividend by a whole multiple of the divisor |
| Semantics.NumericBinary | ember/interpreter.py:276-308 | arithmetic yields a number and comparison a boolean |
| Semantics.DivisionRule | ember/interpreter.py:285-296 | `/` and `%` fail exactly on a zero divisor; otherwise they give the quotient and the floored remainder |
| Semantics.Mismatch | ember/interpreter.py:268-274 | the error for unaccepted operands is a TypeError |
| Semantics.Equality | ember/interpreter.py:255-258 | `==` and `!=` yield booleans |
| Semantics.Binary | ember/interpreter.py:251-274 | a binary operator yields a boolean, a number or a string |
| Semantics.NotEqualNegatesEqual | ember/interpreter.py:255-258 | `!=` is the negation of `==` |
| Semantics.NilEqualsOnlyNil | ember/interpreter.py:404-411 | nil equals nil and nothing else |
| Semantics.StringsConcatenate | ember/interpreter.py:260-262 | `+` on two strings concatenates them |
| Semantics.OtherOperandsRejected | ember/interpreter.py:260-274 | arithmetic and comparison on anything but two numbers (or `+` on two strings) is a TypeError |
| Semantics.Unary | ember/interpreter.py:219-235 | unary operators yield a boolean or a number |
| Semantics.UnaryRules | ember/interpreter.py:219-235 | `not v` is true exactly for nil and false; `-` negates numbers and rejects everything else |
| Semantics.Logical | ember/interpreter.py:239-249 | `and`/`or` yield one of their operands, unconverted |
| Semantics.LogicalTruth | ember/interpreter.py:239-249 | `and` is truthy exactly when both operands are, `or` when either is |
| Semantics.ShortCircuitSound | ember/interpreter.py:239-249 | once the left operand decides, the result is the left operand whatever the right one would be |
| Semantics.CheckIndex | ember/interpreter.py:356-389 | an index is accepted exactly when it is a number whose truncation is within range; a non-number is a TypeError, out of range a runtime error |
| Semantics.NegativeFractionSelectsFirst | ember/interpreter.py:365 | an index just below zero truncates to 0 and selects the first element |
| Semantics.NotIndexable | ember/interpreter.py:386-389 | indexing anything but a list or string fails |
| Semantics.ReadIndex | ember/interpreter.py:356-389 | a successful read has a number index whose truncation `i` is in range, and yields the list's element `i` or the one-character string of the string's character `i` |
| Semantics.StoreTarget | ember/interpreter.py:121-141 | only a list can be assigned into, at a position checked as for reading |
| Semantics.StoreTargetMatchesRead | ember/interpreter.py:121-141 | reading and assigning accept exactly the same positions |
| Semantics.UndefinedVariable | ember/interpreter.py:211-217 | the undefined-variable error is a runtime error at the identifier |
| Semantics.Variable | ember/interpreter.py:211-217 | a variable's value is its binding in the nearest scope, or the undefined-variable error |
| Semantics.CheckArity | ember/interpreter.py:315-331 | a call passes the check exactly when the count is unconstrained (-1) or equal to the expected one |
| Semantics.CannotCall | ember/interpreter.py:351-354 | calling a non-function is a runtime error |
| Semantics.LetBinding | ember/interpreter.py:112-119 | `let` changes no scope's count |
| Semantics.LetReadsBack | ember/interpreter.py:112-119 | after `let`, the name reads back as the new value and no other name changes |
| Semantics.LetUpdatesOuterBinding | ember/interpreter.py:112-119 | `let` never shadows a visible variable: only the enclosing scope that binds it changes |
| Builtins.BuiltinNames | ember/builtins.py:116-124 | each built-in is registered under its own name, and no two share a name |
| Builtins.GlobalBuiltins | ember/builtins.py:109-126 | the global scope binds exactly the seven built-in names, each to its own built-in |
| Builtins.RegisterBuiltins | ember/builtins.py:125-126 | the scope becomes `DefineAll` of the built-ins, in order |
| Builtins.Len | ember/builtins.py:27-34 | `len` succeeds exactly on strings and lists, with a non-negative whole number |
| Builtins.IndexBelowLen | ember/interpreter.py:356-389 | a whole index selects an element exactly when it lies below `len`, and then it is the element (or character) at that position |
| Builtins.AppendTarget | ember/builtins.py:37-44 | `append` accepts exactly a list as its first argument |
| Builtins.StrOf | ember/builtins.py:51-52 | `str` yields a string and never raises |
| Builtins.StrIdempotent | ember/builtins.py:51-52 | `str` leaves a string unchanged, so applying it twice changes nothing |
| Builtins.Quoted | ember/builtins.py:55-62 | the host's quoted form holds the text between two quotes |
| Builtins.DecimalValue | ember/builtins.py:55-62 | the text of a decimal integer reads as a whole number |
| Builtins.Num | ember/builtins.py:55-62 | `num` keeps a number, turns a boolean into 1 or 0 and reads decimal text; its error is a runtime error, never for a number or boolean, and text it rejects holds no digit |
| Builtins.NumRejectsWord | ember/builtins.py:55-62 | a word such as `abc` is rejected with the error `num() cannot convert 'abc' to a number` |
| Builtins.NumOfStr | ember/builtins.py:51-62 | `num` undoes `str` on whole numbers |
| Builtins.PrintLineShapes | ember/builtins.py:112-114 | `print()` writes an empty line, `print(s)` exactly `s` |
| Builtins.PrintLinePair | ember/builtins.py:112-114 | printing two values writes their texts separated by one space |
| Builtins.TypeNamesDistinguish | ember/interpreter.py:413-428 | two values share a type name exactly when they are of the same kind |
| Interpreters.DepthError | ember/interpreter.py:333-338 | the depth error is a runtime error at the call |
| Interpreters.CallResult | ember/interpreter.py:343-349 | a call gives the value a `return` carried, nil when the body finished without one, or the body's failure |
| Interpreters.LiteralValue | ember/interpreter.py:185-192 | a number, string or boolean literal evaluates to a value of that kind, and `nil` to nil |
| Interpreters.CallReturned | ember/interpreter.py:332-349 | a call past the depth check runs its body with one more call in progress, drops the count again after it, and gives `CallResult` of the body |
| Interpreters.ValueAdded | ember/interpreter.py:311-312 | one more expression that gave a value, run from where the previous one left the state, extends the values so far |
| Interpreters.ValueFails | ember/interpreter.py:311-312 | an expression that gave no value ends the evaluation of the whole sequence with its failure |
| Interpreters.ValuesComplete | ember/interpreter.py:311-312 | once every expression gave a value, the sequence gives all of them, in order |
| Interpreters.ConditionAdded | ember/interpreter.py:143-151 | one more `if`/`elif` condition: a falsy one lets the next be tried; a truthy or failing one ends the selection |
| Interpreters.NoneTruthy | ember/interpreter.py:148-154 | when the `if`'s and every `elif`'s condition was falsy, the selection is complete |
| Interpreters.StmtAdded | ember/interpreter.py:177-178 | one more statement that finished normally, run from where the previous one left the state, lets the next one run |
| Interpreters.StmtEnds | ember/interpreter.py:177-178 | a statement that did not finish normally ends the list; its outcome and final state are the list's |
| Interpreters.AllNormal | ember/interpreter.py:82-85 | when every statement finished normally, the list finished normally |
| Interpreters.RoundAdded | ember/interpreter.py:156-158 | a round whose body ran and finished normally lets the loop go on to test its condition again |
| Interpreters.WhileEnds | ember/interpreter.py:156-158 | a round whose condition was falsy or failed, or whose body did not finish normally, ends the loop, which gives that round's outcome and state |
| Interpreters.FirstAbnormalEnds | ember/interpreter.py:343-346 | a statement that does not finish normally (an error or a `return`) is the last of its list to run, and its outcome is the list's |
| Interpreters.SimpleNeverReturns | ember/interpreter.py:91-105 | a `let`, index assignment, `fn` or expression statement never finishes by returning |
| Interpreters.NoReturnWithoutReturn | ember/interpreter.py:343-349 | statements none of which is `return`, `if` or `while` never finish by returning |
| Interpreters.LetReadsValue | ember/interpreter.py:112-119 | after `let name = value`, `name` reads from the same scope as the value its expression gave, and every other name as it did before the binding |
| Interpreters.IfRunsFirstTruthy | ember/interpreter.py:143-151 | `if` runs the block of the first branch whose condition is truthy: every earlier condition was falsy, no later one was evaluated, and the block gives the outcome and the final state |
| Interpreters.IfRunsElse | ember/interpreter.py:148-154 | when no condition is truthy, all of them were evaluated and the `else` block gives the outcome; without `else` the statement finishes normally |
| Interpreters.FalseAndShortCircuits | ember/interpreter.py:239-243 | `false and right` is false, evaluates only its left operand and changes nothing, whatever `right` is (even `1 / 0`) |
| Interpreters.TrueOrShortCircuits | ember/interpreter.py:245-249 | `true or right` is true, evaluates only its left operand and changes nothing |
| Interpreters.WhileFalseSkips | ember/interpreter.py:156-158 | `while false` runs its body zero times, finishes normally and changes nothing |
| Interpreters.Interpreter.constructor | ember/interpreter.py:72-76 | a fresh interpreter: the global scope holds exactly the built-ins, nothing is printed, no list exists, no call is in progress |
| Interpreters.Interpreter.NewScope | ember/interpreter.py:176 | a new empty scope enclosed by the given one, not one of the scopes before; nothing else changes |
| Interpreters.Interpreter.NewList | ember/interpreter.py:194 | a new list holding the items, at the next free address; nothing else changes |
| Interpreters.Interpreter.DefineIn | ember/environment.py:21-23 | defining binds in the scope itself; no other scope changes |
| Interpreters.Interpreter.BindParams | ember/interpreter.py:341-342 | each parameter is bound to its argument in the call's scope |
| Interpreters.Interpreter.LetIn | ember/interpreter.py:116-119 | `LetState`: the scopes visible from `env` become `LetBinding` of the old ones, no scope outside them changes, no scope appears or disappears |
| Interpreters.Interpreter.AssignIn | ember/interpreter.py:116-117 | a name already visible is updated in the nearest scope binding it (`LetState`) |
| Interpreters.Interpreter.BindIn | ember/interpreter.py:118-119 | a name not visible is defined in the current scope (`LetState`) |
| Interpreters.Interpreter.StoreItem | ember/interpreter.py:141 | exactly one element of the list changes |
| Interpreters.Interpreter.AppendItem | ember/builtins.py:37-44 | the list grows by the one value at its end |
| Interpreters.Interpreter.Emit | ember/builtins.py:112-114 | the output grows by the one line |
| Interpreters.Interpreter.Enter | ember/interpreter.py:332-338 | entering a call raises the counter by one, unless it was at the limit, when the counter is reset to 0 and the call is refused |
| Interpreters.Interpreter.Leave | ember/interpreter.py:347-348 | leaving a call lowers the counter by one |
| Interpreters.Interpreter.CallBuiltin | ember/interpreter.py:315-322 | `BuiltinRule`: `print` appends its line `PrintLine` to the output and returns nil; `append` adds its value at the end of its list; `len`, `type`, `str` and `num` give their rules' values and change nothing |
| Interpreters.Interpreter.Eval | ember/interpreter.py:184-209 | `EvalRule`: a literal gives `LiteralValue` and a variable its binding in the scopes visible from `env` (or the undefined-variable error), neither changing anything; every other expression follows its own rule over the runs of its operands, each from the state the one before left; without fuel the outcome is open |
| Interpreters.Interpreter.EvalIdentifier | ember/interpreter.py:211-217 | a variable's value is its binding in the nearest visible scope binding it, or the undefined-variable error |
| Interpreters.Interpreter.EvalAll | ember/interpreter.py:311-312 | `EvalAllRule`: the expressions run left to right, each from the state the previous one left, until one gives no value; the outcome is all their values or that failure |
| Interpreters.Interpreter.EvalList | ember/interpreter.py:193-194 | `ListRule`: the elements in order, then a new list holding their values at the next free address; or the first failure, with no list made |
| Interpreters.Interpreter.EvalUnary | ember/interpreter.py:219-235 | `UnaryRule`: the operand's run, then `Unary` of its value; or the operand's failure |
| Interpreters.Interpreter.EvalBinary | ember/interpreter.py:237-274 | `BinaryRule`: the left operand first, its failure the outcome; `and`/`or` give a deciding left value without running the right operand; otherwise the right operand runs from where the left left the state, and the result is its value (`and`/`or`) or `Binary` of both values |
| Interpreters.Interpreter.EvalIndex | ember/interpreter.py:356-389 | `IndexRule`: the object, then the index from where it left the state, then `ReadIndex` of both values; or the first failure |
| Interpreters.Interpreter.EvalCall | ember/interpreter.py:310-312 | `CallRule`: the callee first, its failure the outcome; then `ArgumentsRule` on the callee's value |
| Interpreters.Interpreter.CallWith | ember/interpreter.py:312-354 | `ArgumentsRule`: the arguments left to right, the first failure the outcome; then `ApplyRule` on the callee's value and the argument values, from where the last argument left the state |
| Interpreters.Interpreter.Apply | ember/interpreter.py:314-354 | `ApplyRule`: a built-in or user function whose argument count passes `CheckArity` runs by `BuiltinRule` or `CallFunctionRule`; a wrong count raises the arity error and changes nothing; any other value raises `CannotCall` |
| Interpreters.Interpreter.CallFunction | ember/interpreter.py:325-349 | `CallFunctionRule`: the 1001st nested call raises the depth error and sets the counter to 0; otherwise the body runs by `BodyRule` with the counter one higher, the counter drops back, and the call gives `CallResult` of the body |
| Interpreters.Interpreter.CallScope | ember/interpreter.py:340-342 | the call's scope is new, enclosed by the closure, and binds exactly the parameters to the arguments; nothing else changes |
| Interpreters.Interpreter.RunBody | ember/interpreter.py:340-346 | `BodyRule`: in a new scope enclosed by the closure that starts with exactly the parameters bound to the arguments, the body's statements run by `SeqRule` |
| Interpreters.Interpreter.ExecStmt | ember/interpreter.py:91-110 | `ExecRule`: each kind of statement by its own rule; `fn` binds a function closing over `env` in `env`'s scope; an expression statement finishes normally once its value is known |
| Interpreters.Interpreter.ExecFnDef | ember/interpreter.py:160-167 | the current scope gains the function, named, with its parameters and body, closing over that scope; nothing else changes |
| Interpreters.Interpreter.ExecReturn | ember/interpreter.py:169-173 | `ReturnRule`: `return` carries its expression's value, nil without one, as a `Returning` completion; a failing expression is the outcome |
| Interpreters.Interpreter.ExecLet | ember/interpreter.py:112-119 | `LetRule`: the value's run, then `LetState` from where it left the state; a failing value is the outcome and binds nothing |
| Interpreters.Interpreter.ExecIndexAssign | ember/interpreter.py:121-141 | `StoreRule`: object, index and value in that order, then on a list only the element `StoreTarget` picks changes; a failure among the three or `StoreTarget`'s error changes nothing more |
| Interpreters.Interpreter.StoreAt | ember/interpreter.py:126-141 | on a list, a checked index replaces that one element and nothing else changes; a bad index or a non-list raises its error and changes nothing |
| Interpreters.Interpreter.SelectBranch | ember/interpreter.py:143-151 | `SelectRule`: the conditions run in order up to the first truthy or failing one, every earlier one falsy; the outcome names the chosen branch, the `else` when none was truthy, or the failure |
| Interpreters.Interpreter.ExecIf | ember/interpreter.py:143-154 | `IfRule`: `SelectRule`, then the block of the first truthy branch, or the `else` block when none was, runs in a fresh scope and gives the outcome; a failing condition is the outcome |
| Interpreters.Interpreter.RunBranch | ember/interpreter.py:144-154 | the block the conditions chose runs by `BlockRule` from where the last condition left the state, completing `IfRule` |
| Interpreters.Interpreter.ExecWhile | ember/interpreter.py:156-158 | `WhileRule`: rounds, each from where the previous left the state; every round but the last ran the body, which finished normally; the last one had a falsy or failing condition or a body that did not finish normally, and gives the outcome |
| Interpreters.Interpreter.RunRounds | ember/interpreter.py:156-158 | the rounds of a loop that continued (`RoundsSoFar`), then the round that ended it |
| Interpreters.Interpreter.WhileRound | ember/interpreter.py:157-158 | `RoundRule`: the condition, then, when it is truthy, the body runs in a fresh scope (`BlockRule`) and its outcome is the round's |
| Interpreters.Interpreter.ExecBlock | ember/interpreter.py:175-178 | `BlockRule`: a new empty scope enclosed by the current one, and the statements run in it by `SeqRule` |
| Interpreters.Interpreter.ExecSeq | ember/interpreter.py:82-85 | `SeqRule`: statements run in order, each from the state the previous left, up to the first that does not finish normally, whose outcome is the list's |
| Interpreters.Interpreter.Execute | ember/interpreter.py:82-85 | the program's statements run by `SeqRule` in the global scope |
| Repl.Find | ember/repl.py:75 | -1 exactly when the character is absent; otherwise its first index |
| Repl.StripComment | ember/repl.py:75-78 | the kept text has no `#`, is a prefix of the line, and is followed by `#` when shorter |
| Repl.Words | ember/repl.py:81 | every element of the split is a non-empty run of non-space characters |
| Repl.NestingDepth | ember/repl.py:69-88 | the count is the `do` words less the `end` words of the line without its comment |
| Repl.NetDepthBounded | ember/repl.py:82-88 | the count is at most the number of words, either way |
| Repl.CommentIgnored | ember/repl.py:75-78 | whatever follows `#` is ignored |
| Repl.BlankLine | ember/repl.py:69-88 | a blank or comment-only line counts 0 |
| Repl.WordsOfJoin | ember/repl.py:81 | splitting words joined by single spaces gives back the words |
| Repl.HashInStringStartsComment | ember/repl.py:75-78 | a `#` inside a string literal still starts the comment: `print("#") do` counts 0 |

## Left out

- The lexer, `str.split` and the REPL: character classes are ASCII only. The host's `isdigit`, `isalpha`, `isalnum` and whitespace also accept other Unicode characters.
- Numbers are exact reals. IEEE rounding, NaN, infinities and -0.0 are not modelled.
- Values.Render: the text of a non-integral number is left open (`Undetermined`), because it is the host's shortest round-trip float text.
- Builtins.Num: text that is not a decimal integer but that the host's `float()` might accept is left open, because that syntax (signs, fractions, exponents, underscores, `inf`, `nan`, surrounding blanks) is not modelled. Only text with no digit and no `n` or `N`, all printable ASCII, is known to be rejected. The quoted form in its error is determined only for plain printable ASCII.
- The built-in `input` reads the console; a call to it is left open.
- Token `__repr__` is debugging output and is not part of this model.
- The command-line entry point, the file runner and the REPL's read loop are I/O and are not part of this model. Printed output is a sequence of lines held by the interpreter.
- Interpreters.Interpreter.Eval: evaluation takes a fuel bound, and loops have an iteration bound, because the model must terminate. Running out of either gives `Undetermined`.
- Values.Equal: rendering and equality stop at a fixed nesting depth of lists and give `Undetermined` beyond it. The host's own recursion limit is not modelled.
- The host's RecursionError, which can come before Ember's 1000-call limit, is not modelled.
- Interpreters.Interpreter.CallFunction: the counter is left as the code leaves it after a depth error (0, then lowered by the calls unwinding). It is not restored to the depth before the call.
- Interpreters.Interpreter.Execute: a `return` outside any function ends the run with a `Returning` completion, where the host lets its control signal escape.
- Interpreters.Interpreter.ExecWhile: at most `fuel` rounds may run the body; a loop still running after that gives `Undetermined`.
- Interpreters.Interpreter.ExecStmt: the host's "Unknown statement type" and "Unknown expression type" errors cannot arise, because statements and expressions are closed datatypes.
- Type names the host reports as "unknown" are unreachable: every Ember value has a kind.
- Function values compare by datatype equality, with the closure compared by reference, where the host compares the dataclass fields.
- Grammar.Consume: requires that the expected kind is not EOF. The parser never asks for EOF, so consuming always advances.
