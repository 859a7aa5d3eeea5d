/**
 * The REPL's rule for whether an entered line leaves a block open: the net
 * number of `do` and `end` words on it.  The rule works on words, not on
 * tokens: everything from the first `#` on is dropped, even a `#` inside a
 * string literal, and a `do` or `end` standing alone inside a string
 * literal still counts.
 */
module Repl {
  import opened Util

  /** The characters the host's `str.split()` separates words at, within ASCII. */
  predicate IsSpace(c: char) {
    c == ' ' || '\t' <= c <= '\r' || '\U{1c}' <= c <= '\U{1f}'
  }

  /** The host's `str.find` for one character: the index of its first occurrence, or -1. */
  function Find(s: string, c: char): (i: int)
    ensures -1 <= i < |s|
    ensures i == -1 <==> c !in s
    ensures i >= 0 ==> s[i] == c && c !in s[..i]
    decreases |s|
  {
    if s == [] then -1
    else if s[0] == c then 0
    else
      var j := Find(s[1..], c);
      assert s[1..] == s[1..|s|];
      assert j >= 0 ==> s[..j + 1] == [s[0]] + s[1..][..j];
      if j == -1 then -1 else j + 1
  }

  /** The line without its comment: everything before the first `#`. */
  function StripComment(line: string): (code: string)
    ensures '#' !in code && code <= line
    ensures |code| < |line| ==> line[|code|] == '#'
  {
    var p := Find(line, '#');
    if p >= 0 then line[..p] else line
  }

  /** The length of the word at the start of `s`: its characters up to the first space. */
  function WordLength(s: string): (n: nat)
    ensures n <= |s|
    ensures forall i | 0 <= i < n :: !IsSpace(s[i])
    ensures n < |s| ==> IsSpace(s[n])
    decreases |s|
  {
    if s == [] || IsSpace(s[0]) then 0 else 1 + WordLength(s[1..])
  }

  /** A word: at least one character and no space. */
  predicate IsWord(w: string) {
    |w| > 0 && forall i | 0 <= i < |w| :: !IsSpace(w[i])
  }

  /** The host's `str.split()`: the maximal runs of non-space characters, in order. */
  function Words(s: string): (ws: seq<string>)
    ensures forall k | 0 <= k < |ws| :: IsWord(ws[k])
    decreases |s|
  {
    if s == [] then []
    else if IsSpace(s[0]) then Words(s[1..])
    else
      var n := WordLength(s);
      [s[..n]] + Words(s[n..])
  }

  /** The net change of nesting from a line's words: one up per `do`, one down per `end`. */
  function NetDepth(words: seq<string>): int {
    Count(words, "do") - Count(words, "end")
  }

  /** `_nesting_depth`: the comment is stripped, then the words are scanned in order. */
  method NestingDepth(line: string) returns (depth: int)
    ensures depth == NetDepth(Words(StripComment(line)))
  {
    var code := StripComment(line);
    var words := Words(code);
    depth := 0;
    for i := 0 to |words|
      invariant depth == NetDepth(words[..i])
    {
      assert words[..i + 1] == words[..i] + [words[i]];
      CountSnoc(words[..i], words[i], "do");
      CountSnoc(words[..i], words[i], "end");
      if words[i] == "do" {
        depth := depth + 1;
      } else if words[i] == "end" {
        depth := depth - 1;
      }
    }
    assert words[..|words|] == words;
  }

  // ---------------------------------------------------------------
  // Properties
  // ---------------------------------------------------------------

  /** No word is both `do` and `end`, so together they are at most all the words. */
  lemma {:induction false} DoEndAtMostAll(words: seq<string>)
    ensures Count(words, "do") + Count(words, "end") <= |words|
    decreases |words|
  {
    if words != [] {
      DoEndAtMostAll(words[1..]);
    }
  }

  /** The change of nesting is never larger, either way, than the number of words on the line. */
  lemma NetDepthBounded(words: seq<string>)
    ensures -|words| <= NetDepth(words) <= |words|
  {
    DoEndAtMostAll(words);
  }

  /** A comment, whatever it holds, does not change the count: only the code before `#` is read. */
  lemma CommentIgnored(code: string, comment: string)
    requires '#' !in code
    ensures StripComment(code + "#" + comment) == code
  {
    var line := code + "#" + comment;
    assert line[|code|] == '#' && line[..|code|] == code;
  }

  /** Text of spaces only has no words. */
  lemma {:induction false} NoWordsInSpaces(s: string)
    requires forall i | 0 <= i < |s| :: IsSpace(s[i])
    ensures Words(s) == []
    decreases |s|
  {
    if s != [] {
      NoWordsInSpaces(s[1..]);
    }
  }

  /** A blank or comment-only line changes nothing. */
  lemma BlankLine(line: string)
    requires forall i | 0 <= i < |StripComment(line)| :: IsSpace(StripComment(line)[i])
    ensures Words(StripComment(line)) == [] && NetDepth(Words(StripComment(line))) == 0
  {
    NoWordsInSpaces(StripComment(line));
  }

  /** A word followed by a space or by nothing is read whole. */
  lemma {:induction false} WordLengthOfWord(w: string, rest: string)
    requires forall i | 0 <= i < |w| :: !IsSpace(w[i])
    requires rest == [] || IsSpace(rest[0])
    ensures WordLength(w + rest) == |w|
    decreases |w|
  {
    if w != [] {
      assert (w + rest)[1..] == w[1..] + rest;
      WordLengthOfWord(w[1..], rest);
    }
  }

  lemma WordsAfterWord(w: string, rest: string)
    requires IsWord(w) && (rest == [] || IsSpace(rest[0]))
    ensures Words(w + rest) == [w] + Words(rest)
  {
    WordLengthOfWord(w, rest);
    assert (w + rest)[..|w|] == w && (w + rest)[|w|..] == rest;
  }

  /** Splitting words joined by single spaces gives back the words. */
  lemma {:induction false} WordsOfJoin(ws: seq<string>)
    requires forall k | 0 <= k < |ws| :: IsWord(ws[k])
    ensures Words(Join(" ", ws)) == ws
    decreases |ws|
  {
    if |ws| == 1 {
      WordsAfterWord(ws[0], "");
      assert ws[0] + "" == ws[0];
    } else if |ws| > 1 {
      var rest := Join(" ", ws[1..]);
      assert Join(" ", ws) == ws[0] + (" " + rest);
      WordsAfterWord(ws[0], " " + rest);
      assert (" " + rest)[1..] == rest;
      WordsOfJoin(ws[1..]);
    }
  }

  /** The code before the `#` of `print("#") do`. */
  const HASH_LINE_CODE: string := "print(\""

  lemma HashLineStrip()
    ensures StripComment("print(\"#\") do") == HASH_LINE_CODE
  {
    assert HASH_LINE_CODE + "#" + "\") do" == "print(\"#\") do";
    CommentIgnored(HASH_LINE_CODE, "\") do");
  }

  lemma HashLineWords()
    ensures Words(HASH_LINE_CODE) == [HASH_LINE_CODE]
  {
    WordsAfterWord(HASH_LINE_CODE, "");
    assert HASH_LINE_CODE + "" == HASH_LINE_CODE;
  }

  /**
   * A `#` inside a string literal still starts the comment: the line
   * `print("#") do` opens a block, yet its count is 0.
   */
  lemma HashInStringStartsComment()
    ensures StripComment("print(\"#\") do") == "print(\""
    ensures NetDepth(Words(StripComment("print(\"#\") do"))) == 0
  {
    HashLineStrip();
    HashLineWords();
  }
}
