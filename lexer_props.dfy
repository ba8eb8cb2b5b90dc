/**
 * What the TINY scanner promises about the tokens it emits, proved about the
 * reference definition Lex that Tokenize is shown to compute.
 */
module LexerProperties {
  import opened Lexer

  // ---------------------------------------------------------------------------
  // Spans stay in bounds, in order, without overlap

  /** Every span lies within [lo, hi], and an earlier span ends before a later one starts. */
  ghost predicate InOrder(ts: seq<Token>, lo: nat, hi: nat)
  {
    (forall k :: 0 <= k < |ts| ==> lo <= ts[k].GetSpan().0 <= ts[k].GetSpan().1 <= hi) &&
    (forall k, m :: 0 <= k < m < |ts| ==> ts[k].GetSpan().1 <= ts[m].GetSpan().0)
  }

  lemma InOrderAppend(a: seq<Token>, b: seq<Token>, lo: nat, mid: nat, hi: nat)
    requires lo <= mid <= hi && InOrder(a, lo, mid) && InOrder(b, mid, hi)
    ensures InOrder(a + b, lo, hi)
  {
    var ab := a + b;
    forall k | 0 <= k < |ab|
      ensures lo <= ab[k].GetSpan().0 <= ab[k].GetSpan().1 <= hi
    {
      if k < |a| {
        assert ab[k] == a[k];
      } else {
        assert ab[k] == b[k - |a|];
      }
    }
    forall k, m | 0 <= k < m < |ab|
      ensures ab[k].GetSpan().1 <= ab[m].GetSpan().0
    {
      if m < |a| {
        assert ab[k] == a[k] && ab[m] == a[m];
      } else if k < |a| {
        assert ab[k] == a[k] && ab[m] == b[m - |a|];
      } else {
        assert ab[k] == b[k - |a|] && ab[m] == b[m - |a|];
      }
    }
  }

  /** The tokens of one lexeme lie between its start and the start of the next one, in order. */
  lemma NextLexemeInOrder(s: seq<AsciiChar>, i: nat)
    requires i < |s|
    ensures InOrder(NextLexeme(s, i).0, i, NextLexeme(s, i).1)
  {
  }

  /** The tokens of s from position i have spans within [i, |s|], in order and disjoint. */
  lemma {:induction false} LexInOrder(s: seq<AsciiChar>, i: nat)
    requires i <= |s|
    ensures InOrder(Lex(s, i), i, |s|)
    decreases |s| - i
  {
    if i < |s| {
      var (head, next) := NextLexeme(s, i);
      NextLexemeInOrder(s, i);
      LexInOrder(s, next);
      InOrderAppend(head, Lex(s, next), i, next, |s|);
    }
  }

  // ---------------------------------------------------------------------------
  // Each lexeme class maps to a known token shape

  /** A character that START turns into a one-character symbol by itself. */
  predicate IsSymbolChar(c: AsciiChar)
  {
    !IsWhitespace(c) && !IsLetter(c) && !IsDigit(c)
  }

  /** What the text under a token of each variant looks like. */
  ghost predicate WellShaped(s: seq<AsciiChar>, t: Token)
  {
    var (a, b) := t.GetSpan();
    a <= b <= |s| &&
    match t
    case Number(_) =>
      a < b && AllIn(s, a, b, Digits) && b < |s| && !IsDigit(s[b]) && (a == 0 || !IsDigit(s[a - 1]))
    case Reserved(_) =>
      a < b && AllIn(s, a, b, Letters) && b < |s| && !IsLetter(s[b]) && (a == 0 || !IsLetter(s[a - 1]))
      && s[a..b] in Keywords
    case Identifier(_) =>
      a < b && AllIn(s, a, b, Letters) && b < |s| && !IsLetter(s[b]) && (a == 0 || !IsLetter(s[a - 1]))
      && s[a..b] !in Keywords
    case Comment(_) =>
      0 < a && s[a - 1] == '{' && b < |s| && s[b] == '}' && AllIn(s, a, b, NotCloseBrace)
    case Symbol(_) =>
      (b == a + 1 && IsSymbolChar(s[a]) && (s[a] == ':' ==> b < |s| && s[b] != '='))
      || (b == a + 2 && s[a] == ':' && s[a + 1] == '=')
  }

  /** Position i does not split a letter run or a digit run. */
  ghost predicate Boundary(s: seq<AsciiChar>, i: nat)
    requires i <= |s|
  {
    i == 0 || i == |s|
    || (!(IsLetter(s[i - 1]) && IsLetter(s[i])) && !(IsDigit(s[i - 1]) && IsDigit(s[i])))
  }

  lemma WordTokenShape(s: seq<AsciiChar>, i: nat, j: nat)
    requires i < j < |s| && Boundary(s, i) && IsLetter(s[i])
    requires j == RunEnd(s, i, Letters)
    ensures WellShaped(s, WordToken(s, i, j))
  {
    var t := WordToken(s, i, j);
    assert t.GetSpan() == (i, j);
    if t.Kind() == TokenType.Reserved {
      assert t.Reserved?;
    } else {
      assert t.Identifier?;
    }
  }

  /** Each lexeme ends where no letter run or digit run continues. */
  lemma NextLexemeBoundary(s: seq<AsciiChar>, i: nat)
    requires i < |s|
    ensures Boundary(s, NextLexeme(s, i).1)
  {
  }

  /** The tokens of one lexeme that starts at a boundary have the shape of their class. */
  lemma NextLexemeShapes(s: seq<AsciiChar>, i: nat)
    requires i < |s| && Boundary(s, i)
    ensures forall t :: t in NextLexeme(s, i).0 ==> WellShaped(s, t)
  {
    var c := s[i];
    if IsWhitespace(c) {
    } else if c == '{' {
      var j := RunEnd(s, i + 1, NotCloseBrace);
      assert WellShaped(s, Token.Symbol((i, i + 1)));
      if j < |s| {
        assert WellShaped(s, Token.Comment((i + 1, j)));
        assert WellShaped(s, Token.Symbol((j, j + 1)));
      }
    } else if IsLetter(c) {
      var j := RunEnd(s, i, Letters);
      if j < |s| {
        WordTokenShape(s, i, j);
      }
    } else if IsDigit(c) {
      var j := RunEnd(s, i, Digits);
      if j < |s| {
        assert WellShaped(s, Token.Number((i, j)));
      }
    } else if c == ':' {
      if i + 1 < |s| {
        if s[i + 1] == '=' {
          assert WellShaped(s, Token.Symbol((i, i + 2)));
        } else {
          assert WellShaped(s, Token.Symbol((i, i + 1)));
        }
      }
    } else {
      assert WellShaped(s, Token.Symbol((i, i + 1)));
    }
  }

  /** Every token emitted from a boundary position has the shape of its class. */
  lemma {:induction false} LexShapes(s: seq<AsciiChar>, i: nat)
    requires i <= |s| && Boundary(s, i)
    ensures forall t :: t in Lex(s, i) ==> WellShaped(s, t)
    decreases |s| - i
  {
    if i < |s| {
      var (head, next) := NextLexeme(s, i);
      NextLexemeShapes(s, i);
      NextLexemeBoundary(s, i);
      LexShapes(s, next);
    }
  }

  /**
   * Whitespace produces nothing: no span of a token other than a comment covers
   * a whitespace character.
   */
  lemma NoTokenOnWhitespace(s: seq<AsciiChar>)
    ensures forall t, k ::
              (t in Lex(s, 0) && !t.Comment? && t.GetSpan().0 <= k < t.GetSpan().1 && k < |s|) ==> !IsWhitespace(s[k])
  {
    LexShapes(s, 0);
    forall t, k | t in Lex(s, 0) && !t.Comment? && t.GetSpan().0 <= k < t.GetSpan().1 && k < |s|
      ensures !IsWhitespace(s[k])
    {
      assert WellShaped(s, t);
    }
  }

  // ---------------------------------------------------------------------------
  // Lexeme by lexeme, from a position the scanner reaches in its start state

  /** A run of whitespace is skipped without emitting anything. */
  lemma {:induction false} WhitespaceSkipped(s: seq<AsciiChar>, i: nat, j: nat)
    requires i <= j <= |s|
    requires forall k :: i <= k < j ==> IsWhitespace(s[k])
    ensures Lex(s, i) == Lex(s, j)
    decreases j - i
  {
    if i < j {
      WhitespaceSkipped(s, i + 1, j);
    }
  }

  /** A maximal digit run followed by another character is one number token. */
  lemma NumberLexeme(s: seq<AsciiChar>, i: nat, j: nat)
    requires i < j < |s| && AllIn(s, i, j, Digits) && !IsDigit(s[j])
    ensures Lex(s, i) == [Token.Number((i, j))] + Lex(s, j)
  {
    RunEndUnique(s, i, j, Digits);
  }

  /** A maximal letter run followed by another character is one word token, reserved exactly for a keyword. */
  lemma WordLexeme(s: seq<AsciiChar>, i: nat, j: nat)
    requires i < j < |s| && AllIn(s, i, j, Letters) && !IsLetter(s[j])
    ensures s[i..j] in Keywords ==> Lex(s, i) == [Token.Reserved((i, j))] + Lex(s, j)
    ensures s[i..j] !in Keywords ==> Lex(s, i) == [Token.Identifier((i, j))] + Lex(s, j)
  {
    RunEndUnique(s, i, j, Letters);
  }

  /** ":=" is one two-character symbol; ':' before any other character is a one-character symbol. */
  lemma ColonLexeme(s: seq<AsciiChar>, i: nat)
    requires i + 1 < |s| && s[i] == ':'
    ensures s[i + 1] == '=' ==> Lex(s, i) == [Token.Symbol((i, i + 2))] + Lex(s, i + 2)
    ensures s[i + 1] != '=' ==> Lex(s, i) == [Token.Symbol((i, i + 1))] + Lex(s, i + 1)
  {
  }

  /** "{ body }" is the symbol '{', the comment body (possibly empty) and the symbol '}'. */
  lemma CommentLexeme(s: seq<AsciiChar>, i: nat, j: nat)
    requires i < j < |s| && s[i] == '{' && s[j] == '}' && AllIn(s, i + 1, j, NotCloseBrace)
    ensures Lex(s, i) == [Token.Symbol((i, i + 1)), Token.Comment((i + 1, j)), Token.Symbol((j, j + 1))] + Lex(s, j + 1)
  {
    RunEndUnique(s, i + 1, j, NotCloseBrace);
  }

  /**
   * A lexeme still open at the end of the input emits nothing: a trailing
   * letter run, digit run or ':' is dropped, and an unclosed comment leaves
   * only the '{' symbol.
   */
  lemma OpenLexemeDropped(s: seq<AsciiChar>, i: nat)
    requires i < |s|
    ensures AllIn(s, i, |s|, Letters) ==> Lex(s, i) == []
    ensures AllIn(s, i, |s|, Digits) ==> Lex(s, i) == []
    ensures i + 1 == |s| && s[i] == ':' ==> Lex(s, i) == []
    ensures s[i] == '{' && AllIn(s, i + 1, |s|, NotCloseBrace) ==> Lex(s, i) == [Token.Symbol((i, i + 1))]
  {
    if AllIn(s, i, |s|, Letters) {
      RunEndUnique(s, i, |s|, Letters);
    }
    if AllIn(s, i, |s|, Digits) {
      RunEndUnique(s, i, |s|, Digits);
    }
    if s[i] == '{' && AllIn(s, i + 1, |s|, NotCloseBrace) {
      RunEndUnique(s, i + 1, |s|, NotCloseBrace);
    }
  }

  /** What the scanner's output promises as a whole. */
  lemma TokensWellFormed(s: seq<AsciiChar>)
    ensures InOrder(Lex(s, 0), 0, |s|)
    ensures forall t :: t in Lex(s, 0) ==> WellShaped(s, t)
  {
    LexInOrder(s, 0);
    LexShapes(s, 0);
  }
}
