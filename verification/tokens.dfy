/**
 * The token vocabulary of Ember: the closed set of token types, the
 * immutable token record and the keyword table used to classify
 * identifiers.
 */
module Tokens {

  /** Every token type the lexer can produce, in declaration order. */
  datatype TokenType =
    // literals
    | NUMBER | STRING | IDENTIFIER | TRUE | FALSE | NIL
    // keywords
    | LET | FN | IF | ELIF | ELSE | WHILE | DO | END | RETURN | AND | OR | NOT
    // operators
    | PLUS | MINUS | STAR | SLASH | PERCENT | EQUAL | EQUAL_EQUAL | BANG_EQUAL
    | LESS | LESS_EQUAL | GREATER | GREATER_EQUAL
    // delimiters
    | LPAREN | RPAREN | LBRACKET | RBRACKET | COMMA
    // special
    | NEWLINE | EOF

  /** The literal a token carries: a number, the decoded text of a string, a boolean, or none. */
  datatype Literal = NoLiteral | NumberValue(n: real) | StringValue(s: string) | BoolValue(b: bool)

  /** A token is a value: once built it cannot be changed. */
  datatype Token = Token(kind: TokenType, lexeme: string, literal: Literal, line: int, column: int)

  /** The reserved words and the token type each one denotes. */
  const KEYWORDS: map<string, TokenType> := map[
    "let" := LET, "fn" := FN, "if" := IF, "elif" := ELIF, "else" := ELSE,
    "while" := WHILE, "do" := DO, "end" := END, "return" := RETURN,
    "and" := AND, "or" := OR, "not" := NOT,
    "true" := TRUE, "false" := FALSE, "nil" := NIL
  ]

  /** Classification of a scanned word: its keyword type, or IDENTIFIER. */
  function KeywordKind(lexeme: string): (k: TokenType)
    ensures lexeme in KEYWORDS ==> k == KEYWORDS[lexeme]
    ensures lexeme !in KEYWORDS ==> k == IDENTIFIER
    ensures k != IDENTIFIER <==> lexeme in {"let", "fn", "if", "elif", "else", "while", "do", "end", "return", "and", "or", "not", "true", "false", "nil"}
  {
    if lexeme in KEYWORDS then KEYWORDS[lexeme] else IDENTIFIER
  }

  /** The table's keys are exactly the fifteen reserved words. */
  lemma KeywordSpellings()
    ensures KEYWORDS.Keys == {"let", "fn", "if", "elif", "else", "while", "do", "end", "return", "and", "or", "not", "true", "false", "nil"}
  {
  }

  /** The table has exactly fifteen entries. */
  lemma KeywordCount()
    ensures |KEYWORDS| == 15
  {
    KeywordsByLength();
    SpellingsCount();
  }

  /** The same keys, grouped by length: two to six letters. */
  lemma KeywordsByLength()
    ensures KEYWORDS.Keys == {"fn", "if", "do", "or"} + {"let", "end", "and", "not", "nil"} + {"elif", "else", "true"} + {"while", "false"} + {"return"}
  {
  }

  lemma SpellingsCount()
    ensures |{"fn", "if", "do", "or"} + {"let", "end", "and", "not", "nil"} + {"elif", "else", "true"} + {"while", "false"} + {"return"}| == 15
  {
    WordsOfLength2();
    WordsOfLength3();
    UnionOfLengths({"fn", "if", "do", "or"}, {"let", "end", "and", "not", "nil"}, 3);
    WordsOfLength4();
    UnionOfLengths({"fn", "if", "do", "or"} + {"let", "end", "and", "not", "nil"}, {"elif", "else", "true"}, 4);
    WordsOfLength5();
    UnionOfLengths({"fn", "if", "do", "or"} + {"let", "end", "and", "not", "nil"} + {"elif", "else", "true"}, {"while", "false"}, 5);
    WordsOfLength6();
    UnionOfLengths({"fn", "if", "do", "or"} + {"let", "end", "and", "not", "nil"} + {"elif", "else", "true"} + {"while", "false"}, {"return"}, 6);
  }

  /** Words of a length no earlier word has are all new. */
  lemma UnionOfLengths(a: set<string>, b: set<string>, k: nat)
    requires forall w | w in a :: |w| < k
    requires forall w | w in b :: |w| == k
    ensures |a + b| == |a| + |b|
    ensures forall w | w in a + b :: |w| <= k
  {
    assert a * b == {};
  }

  /** The words of each length are distinct. */
  lemma WordsOfLength2()
    ensures |{"fn", "if", "do", "or"}| == 4
    ensures forall w | w in {"fn", "if", "do", "or"} :: |w| == 2
  {
    var s: set<string> := {};
    s := s + {"fn"};
    s := s + {"if"};
    s := s + {"do"};
    s := s + {"or"};
    assert s == {"fn", "if", "do", "or"};
  }

  lemma WordsOfLength3()
    ensures |{"let", "end", "and", "not", "nil"}| == 5
    ensures forall w | w in {"let", "end", "and", "not", "nil"} :: |w| == 3
  {
    var s: set<string> := {};
    s := s + {"let"};
    s := s + {"end"};
    s := s + {"and"};
    s := s + {"not"};
    s := s + {"nil"};
    assert s == {"let", "end", "and", "not", "nil"};
  }

  lemma WordsOfLength4()
    ensures |{"elif", "else", "true"}| == 3
    ensures forall w | w in {"elif", "else", "true"} :: |w| == 4
  {
    var s: set<string> := {};
    s := s + {"elif"};
    s := s + {"else"};
    s := s + {"true"};
    assert s == {"elif", "else", "true"};
  }

  lemma WordsOfLength5()
    ensures |{"while", "false"}| == 2
    ensures forall w | w in {"while", "false"} :: |w| == 5
  {
    var s: set<string> := {};
    s := s + {"while"};
    s := s + {"false"};
    assert s == {"while", "false"};
  }

  lemma WordsOfLength6()
    ensures |{"return"}| == 1
    ensures forall w | w in {"return"} :: |w| == 6
  {
  }

  /** No two keywords denote the same token type, and none denotes IDENTIFIER. */
  lemma KeywordsInjective(w1: string, w2: string)
    requires w1 in KEYWORDS && w2 in KEYWORDS && w1 != w2
    ensures KEYWORDS[w1] != KEYWORDS[w2]
    ensures KEYWORDS[w1] != IDENTIFIER
  {
  }

  /** A word is classified as a keyword exactly when it is spelled like one. */
  lemma KeywordLookupExact(lexeme: string)
    ensures KeywordKind(lexeme) != IDENTIFIER <==> lexeme in KEYWORDS
  {
  }

  /** A word is classified as IDENTIFIER or a keyword's type, never as a literal or special type. */
  lemma KeywordKindIsWord(lexeme: string)
    ensures KeywordKind(lexeme) != NUMBER && KeywordKind(lexeme) != STRING
    ensures KeywordKind(lexeme) != NEWLINE && KeywordKind(lexeme) != EOF
  {
  }
}
