/**
 * The TINY scanner of tiny_lexer/src/lexer.rs: a five-state machine that walks
 * the source one character at a time and records (start, end) spans, each tagged
 * as a reserved word, identifier, number, comment or symbol.
 *
 * Every character is ASCII here, so a character's UTF-8 width is 1 and a byte
 * offset is the same as a character position.
 */
module Lexer {
  import opened Wrappers

  type AsciiChar = c: char | c as int < 128

  /** A half-open span (start, end) into the source. */
  type Span = (nat, nat)

  datatype State = Start | InComment | InNum | InId | InAssign

  datatype TokenType = Reserved | Identifier | Number | Comment | Symbol

  datatype Token =
    | Reserved(span: Span)
    | Identifier(span: Span)
    | Number(span: Span)
    | Comment(span: Span)
    | Symbol(span: Span)
  {
    /** The span carried by the token, whatever its variant. */
    function GetSpan(): (sp: Span)
      ensures sp == span
    {
      match this
      case Reserved(sp) => sp
      case Identifier(sp) => sp
      case Number(sp) => sp
      case Comment(sp) => sp
      case Symbol(sp) => sp
    }

    /** The token type the variant stands for. */
    function Kind(): TokenType
    {
      match this
      case Reserved(_) => TokenType.Reserved
      case Identifier(_) => TokenType.Identifier
      case Number(_) => TokenType.Number
      case Comment(_) => TokenType.Comment
      case Symbol(_) => TokenType.Symbol
    }
  }

  // ---------------------------------------------------------------------------
  // Character classes (Rust's is_ascii_whitespace, is_alphabetic, is_digit(10)
  // restricted to ASCII)

  predicate IsWhitespace(c: AsciiChar)
  {
    c == ' ' || c == '\t' || c == '\n' || c as int == 0x0C || c == '\r'
  }

  predicate IsLetter(c: AsciiChar)
  {
    ('a' <= c <= 'z') || ('A' <= c <= 'Z')
  }

  predicate IsDigit(c: AsciiChar)
  {
    '0' <= c <= '9'
  }

  /** The words get_token_type classifies as reserved. */
  const Keywords: set<string> := {"if", "then", "else", "repeat", "end", "until", "read", "write"}

  /** The runs the scanner extends one character at a time. */
  datatype CharClass = Letters | Digits | NotCloseBrace

  predicate InClass(c: AsciiChar, cls: CharClass)
  {
    match cls
    case Letters => IsLetter(c)
    case Digits => IsDigit(c)
    case NotCloseBrace => c != '}'
  }

  /** Every character of s[a..b] is in the class. */
  ghost predicate AllIn(s: seq<AsciiChar>, a: nat, b: nat, cls: CharClass)
    requires a <= b <= |s|
  {
    forall k :: a <= k < b ==> InClass(s[k], cls)
  }

  /** The end of the longest run of class characters that starts at i. */
  function RunEnd(s: seq<AsciiChar>, i: nat, cls: CharClass): (r: nat)
    requires i <= |s|
    ensures i <= r <= |s|
    ensures AllIn(s, i, r, cls)
    ensures r < |s| ==> !InClass(s[r], cls)
    decreases |s| - i
  {
    if i < |s| && InClass(s[i], cls) then RunEnd(s, i + 1, cls) else i
  }

  /** A run is determined by its two ends: any maximal run from i ends where RunEnd says. */
  lemma RunEndUnique(s: seq<AsciiChar>, i: nat, j: nat, cls: CharClass)
    requires i <= j <= |s| && AllIn(s, i, j, cls)
    requires j == |s| || !InClass(s[j], cls)
    ensures RunEnd(s, i, cls) == j
  {
  }

  // ---------------------------------------------------------------------------
  // get_token_type, add_token

  /** Classifies a letter run by the keyword list. */
  function GetTokenType(span: Span, src: seq<AsciiChar>): (tt: TokenType)
    requires span.0 <= span.1 <= |src|
    ensures tt == TokenType.Reserved || tt == TokenType.Identifier
    ensures tt == TokenType.Reserved <==> src[span.0..span.1] in Keywords
  {
    var w := src[span.0..span.1];
    if w == "if" || w == "then" || w == "else" || w == "repeat"
       || w == "end" || w == "until" || w == "read" || w == "write"
    then TokenType.Reserved
    else TokenType.Identifier
  }

  /** The token of the given type over the given span. */
  function MakeToken(tokType: TokenType, val: Span): (t: Token)
    ensures t.Kind() == tokType && t.GetSpan() == val
  {
    match tokType
    case Reserved => Token.Reserved(val)
    case Number => Token.Number(val)
    case Symbol => Token.Symbol(val)
    case Identifier => Token.Identifier(val)
    case Comment => Token.Comment(val)
  }

  /** A token is determined by its type and its span. */
  lemma TokenRoundTrip(t: Token)
    ensures MakeToken(t.Kind(), t.GetSpan()) == t
  {
  }

  /** Pushes one token of type tokType over val onto tokens. */
  function AddToken(val: Span, tokType: TokenType, tokens: seq<Token>): (r: seq<Token>)
    ensures |r| == |tokens| + 1 && r[..|tokens|] == tokens
    ensures r[|tokens|].Kind() == tokType && r[|tokens|].GetSpan() == val
  {
    tokens + [MakeToken(tokType, val)]
  }

  // ---------------------------------------------------------------------------
  // Reference definition: the tokens of s, lexeme by lexeme, from position i

  /** The word token (reserved or identifier) over s[a..b]. */
  function WordToken(s: seq<AsciiChar>, a: nat, b: nat): Token
    requires a <= b <= |s|
  {
    MakeToken(GetTokenType((a, b), s), (a, b))
  }

  /**
   * The tokens of the one lexeme that starts at s[i] when the scanner is in its
   * start state there, and the position where the next lexeme starts. When the
   * input ends inside the lexeme, the next position is |s| and the lexeme's
   * tokens are dropped, except the '{' symbol an unclosed comment already emitted.
   */
  function NextLexeme(s: seq<AsciiChar>, i: nat): (r: (seq<Token>, nat))
    requires i < |s|
    ensures i < r.1 <= |s|
  {
    var c := s[i];
    if IsWhitespace(c) then ([], i + 1)
    else if c == '{' then
      var j := RunEnd(s, i + 1, NotCloseBrace);
      if j == |s| then ([Token.Symbol((i, i + 1))], |s|)
      else ([Token.Symbol((i, i + 1)), Token.Comment((i + 1, j)), Token.Symbol((j, j + 1))], j + 1)
    else if IsLetter(c) then
      var j := RunEnd(s, i, Letters);
      if j == |s| then ([], |s|) else ([WordToken(s, i, j)], j)
    else if IsDigit(c) then
      var j := RunEnd(s, i, Digits);
      if j == |s| then ([], |s|) else ([Token.Number((i, j))], j)
    else if c == ':' then
      if i + 1 == |s| then ([], |s|)
      else if s[i + 1] == '=' then ([Token.Symbol((i, i + 2))], i + 2)
      else ([Token.Symbol((i, i + 1))], i + 1)
    else ([Token.Symbol((i, i + 1))], i + 1)
  }

  /** The tokens the scanner emits for s[i..] when it reaches position i in its start state. */
  function Lex(s: seq<AsciiChar>, i: nat): seq<Token>
    requires i <= |s|
    decreases |s| - i
  {
    if i == |s| then []
    else
      var (head, next) := NextLexeme(s, i);
      head + Lex(s, next)
  }

  // ---------------------------------------------------------------------------
  // tokenize

  function CharAt(s: seq<AsciiChar>, k: nat): Option<AsciiChar>
  {
    if k < |s| then Some(s[k]) else None
  }

  // What is still to come when the scanner is inside a lexeme that began at
  // index and its current character is s[at] (in the start state it is Lex(s, at)).

  ghost function CommentPending(s: seq<AsciiChar>, index: nat, at: nat): seq<Token>
    requires index <= at <= |s|
  {
    var j := RunEnd(s, at, NotCloseBrace);
    if j == |s| then [] else [Token.Comment((index, j)), Token.Symbol((j, j + 1))] + Lex(s, j + 1)
  }

  ghost function NumPending(s: seq<AsciiChar>, index: nat, at: nat): seq<Token>
    requires index <= at <= |s|
  {
    var j := RunEnd(s, at, Digits);
    if j == |s| then [] else [Token.Number((index, j))] + Lex(s, j)
  }

  ghost function IdPending(s: seq<AsciiChar>, index: nat, at: nat): seq<Token>
    requires index <= at <= |s|
  {
    var j := RunEnd(s, at, Letters);
    if j == |s| then [] else [WordToken(s, index, j)] + Lex(s, j)
  }

  ghost function AssignPending(s: seq<AsciiChar>, index: nat, at: nat): seq<Token>
    requires index < at <= |s|
  {
    if at == |s| then []
    else if s[at] == '=' then [Token.Symbol((index, at + 1))] + Lex(s, at + 1)
    else [Token.Symbol((index, at))] + Lex(s, at)
  }

  /** Where the lexeme start curr_index stands relative to the current character, and where curr_offset stands, in each state. */
  ghost predicate IndicesFit(s: seq<AsciiChar>, st: State, index: nat, offset: nat, at: nat)
  {
    at <= |s| &&
    match st
    case Start => index == at && offset == at + 1
    case InComment => 0 < index <= at && offset == at
    case InNum => index < at && offset == at
    case InId => index < at && offset == at
    case InAssign => index + 1 == at && offset == at
  }

  /** The tokens still to come in state st, with the current character at position at. */
  ghost function Pending(s: seq<AsciiChar>, st: State, index: nat, offset: nat, at: nat): seq<Token>
    requires IndicesFit(s, st, index, offset, at)
  {
    match st
    case Start => Lex(s, at)
    case InComment => CommentPending(s, index, at)
    case InNum => NumPending(s, index, at)
    case InId => IdPending(s, index, at)
    case InAssign => AssignPending(s, index, at)
  }

  // One method per arm of the state match: each reads the current character c
  // (at position at) and returns the scanner's new state, indices, position and
  // tokens, with what it emitted and what is still to come adding up to what
  // was still to come before.

  /** What is still to come from the start state, by the class of the current character. */
  lemma StartPending(s: seq<AsciiChar>, at: nat)
    requires at < |s|
    ensures IsWhitespace(s[at]) ==> Lex(s, at) == Lex(s, at + 1)
    ensures !IsWhitespace(s[at]) && s[at] == '{' ==>
      Lex(s, at) == [Token.Symbol((at, at + 1))] + CommentPending(s, at + 1, at + 1)
    ensures !IsWhitespace(s[at]) && s[at] != '{' && IsLetter(s[at]) ==>
      Lex(s, at) == IdPending(s, at, at + 1)
    ensures !IsWhitespace(s[at]) && s[at] != '{' && !IsLetter(s[at]) && IsDigit(s[at]) ==>
      Lex(s, at) == NumPending(s, at, at + 1)
    ensures !IsWhitespace(s[at]) && s[at] != '{' && !IsLetter(s[at]) && !IsDigit(s[at]) && s[at] == ':' ==>
      Lex(s, at) == AssignPending(s, at, at + 1)
    ensures !IsWhitespace(s[at]) && s[at] != '{' && !IsLetter(s[at]) && !IsDigit(s[at]) && s[at] != ':' ==>
      Lex(s, at) == [Token.Symbol((at, at + 1))] + Lex(s, at + 1)
  {
    var c := s[at];
    if !IsWhitespace(c) && c == '{' {
      StartComment(s, at);
    } else if !IsWhitespace(c) && IsLetter(c) {
      StartRun(s, at, Letters);
    } else if !IsWhitespace(c) && IsDigit(c) {
      StartRun(s, at, Digits);
    }
  }

  lemma StartComment(s: seq<AsciiChar>, at: nat)
    requires at < |s| && s[at] == '{'
    ensures Lex(s, at) == [Token.Symbol((at, at + 1))] + CommentPending(s, at + 1, at + 1)
  {
    var j := RunEnd(s, at + 1, NotCloseBrace);
    if j == |s| {
      assert Lex(s, at) == [Token.Symbol((at, at + 1))] + Lex(s, |s|);
    }
  }

  /** A run that s[at] belongs to ends where the run from s[at + 1] does. */
  lemma StartRun(s: seq<AsciiChar>, at: nat, cls: CharClass)
    requires at < |s| && InClass(s[at], cls)
    ensures RunEnd(s, at, cls) == RunEnd(s, at + 1, cls)
  {
  }

  /**
   * The START arm's outcome for each class of character, stated as a relation
   * between the scanner's variables before and after.
   */
  ghost predicate StartOutcome(s: seq<AsciiChar>, c: AsciiChar, index: nat, offset: nat, at: nat, tokens: seq<Token>,
                               st': State, index': nat, offset': nat, at': nat, tokens': seq<Token>)
  {
    && at' == at + 1
    && (IsWhitespace(c) ==> st' == Start && tokens' == tokens && index' == index + 1 && offset' == offset + 1)
    && (!IsWhitespace(c) && c == '{' ==>
          st' == InComment && tokens' == tokens + [Token.Symbol((at, at + 1))] && index' == at + 1 && offset' == at + 1)
    && (!IsWhitespace(c) && c != '{' && IsLetter(c) ==> st' == InId && tokens' == tokens && index' == index && offset' == offset)
    && (!IsWhitespace(c) && c != '{' && !IsLetter(c) && IsDigit(c) ==>
          st' == InNum && tokens' == tokens && index' == index && offset' == offset)
    && (!IsWhitespace(c) && c != '{' && !IsLetter(c) && !IsDigit(c) && c == ':' ==>
          st' == InAssign && tokens' == tokens && index' == index && offset' == offset)
    && (!IsWhitespace(c) && c != '{' && !IsLetter(c) && !IsDigit(c) && c != ':' ==>
          st' == Start && tokens' == tokens + [Token.Symbol((at, at + 1))] && index' == at + 1 && offset' == at + 2)
  }

  /** Whatever the START arm does, what it emits plus what is then pending is what was pending. */
  lemma StartConserves(s: seq<AsciiChar>, c: AsciiChar, index: nat, offset: nat, at: nat, tokens: seq<Token>,
                       st': State, index': nat, offset': nat, at': nat, tokens': seq<Token>)
    requires IndicesFit(s, Start, index, offset, at) && at < |s| && c == s[at]
    requires StartOutcome(s, c, index, offset, at, tokens, st', index', offset', at', tokens')
    ensures tokens' + Pending(s, st', index', offset', at') == tokens + Lex(s, at)
  {
    StartPending(s, at);
    if !IsWhitespace(c) && c == '{' {
      assert tokens' + Pending(s, st', index', offset', at') == tokens + ([Token.Symbol((at, at + 1))] + CommentPending(s, at', at'));
    } else if !IsWhitespace(c) && !IsLetter(c) && !IsDigit(c) && c != ':' {
      assert tokens' + Pending(s, st', index', offset', at') == tokens + ([Token.Symbol((at, at + 1))] + Lex(s, at'));
    }
  }

  method StartArm(s: seq<AsciiChar>, c: AsciiChar, index: nat, offset: nat, at: nat, tokens: seq<Token>)
    returns (st': State, index': nat, offset': nat, at': nat, tokens': seq<Token>)
    requires IndicesFit(s, Start, index, offset, at) && at < |s| && c == s[at]
    ensures IndicesFit(s, st', index', offset', at')
    ensures at' == at + 1
    ensures IsWhitespace(c) ==> st' == Start && tokens' == tokens && index' == index + 1 && offset' == offset + 1
    ensures !IsWhitespace(c) && c == '{' ==> st' == InComment && tokens' == tokens + [Token.Symbol((at, at + 1))]
    ensures !IsWhitespace(c) && c != '{' && IsLetter(c) ==> st' == InId && tokens' == tokens
    ensures !IsWhitespace(c) && c != '{' && !IsLetter(c) && IsDigit(c) ==> st' == InNum && tokens' == tokens
    ensures !IsWhitespace(c) && c != '{' && !IsLetter(c) && !IsDigit(c) && c == ':' ==> st' == InAssign && tokens' == tokens
    ensures !IsWhitespace(c) && c != '{' && !IsLetter(c) && !IsDigit(c) && c != ':' ==>
      st' == Start && tokens' == tokens + [Token.Symbol((at, at + 1))]
    ensures tokens' + Pending(s, st', index', offset', at') == tokens + Lex(s, at)
  {
    st', index', offset', at', tokens' := Start, index, offset, at, tokens;
    if IsWhitespace(c) {
      at' := at' + 1;
      index' := index' + 1;
      offset' := offset' + 1;
    } else if c == '{' {
      st' := InComment;
      at' := at' + 1;
      tokens' := AddToken((index', offset'), TokenType.Symbol, tokens');
      index' := index' + 1;
    } else if IsLetter(c) {
      st' := InId;
      at' := at' + 1;
    } else if IsDigit(c) {
      st' := InNum;
      at' := at' + 1;
    } else if c == ':' {
      st' := InAssign;
      at' := at' + 1;
    } else {
      tokens' := AddToken((index', offset'), TokenType.Symbol, tokens');
      index' := offset';
      offset' := offset' + 1;
      at' := at' + 1;
    }
    StartConserves(s, c, index, offset, at, tokens, st', index', offset', at', tokens');
  }

  method CommentArm(s: seq<AsciiChar>, c: AsciiChar, index: nat, offset: nat, at: nat, tokens: seq<Token>)
    returns (st': State, index': nat, offset': nat, at': nat, tokens': seq<Token>)
    requires IndicesFit(s, InComment, index, offset, at) && at < |s| && c == s[at]
    ensures IndicesFit(s, st', index', offset', at')
    ensures at' == at + 1
    ensures c == '}' ==> st' == Start && tokens' == tokens + [Token.Comment((index, at)), Token.Symbol((at, at + 1))]
    ensures c != '}' ==> st' == InComment && tokens' == tokens
    ensures tokens' + Pending(s, st', index', offset', at') == tokens + Pending(s, InComment, index, offset, at)
  {
    st', index', offset', at', tokens' := InComment, index, offset, at, tokens;
    if c == '}' {
      tokens' := AddToken((index', offset'), TokenType.Comment, tokens');
      index' := offset';
      offset' := offset' + 1;
      tokens' := AddToken((index', offset'), TokenType.Symbol, tokens');
      st' := Start;
      at' := at' + 1;
      index' := offset';
      offset' := offset' + 1;
    } else {
      offset' := offset' + 1;
      at' := at' + 1;
      st' := InComment;
      assert RunEnd(s, at, NotCloseBrace) == RunEnd(s, at', NotCloseBrace);
    }
  }

  method NumArm(s: seq<AsciiChar>, c: AsciiChar, index: nat, offset: nat, at: nat, tokens: seq<Token>)
    returns (st': State, index': nat, offset': nat, at': nat, tokens': seq<Token>)
    requires IndicesFit(s, InNum, index, offset, at) && at < |s| && c == s[at]
    ensures IndicesFit(s, st', index', offset', at')
    ensures IsDigit(c) ==> st' == InNum && at' == at + 1 && tokens' == tokens
    ensures !IsDigit(c) ==> st' == Start && at' == at && tokens' == tokens + [Token.Number((index, at))]
    ensures tokens' + Pending(s, st', index', offset', at') == tokens + Pending(s, InNum, index, offset, at)
  {
    st', index', offset', at', tokens' := InNum, index, offset, at, tokens;
    if IsDigit(c) {
      offset' := offset' + 1;
      at' := at' + 1;
      assert RunEnd(s, at, Digits) == RunEnd(s, at', Digits);
    } else {
      tokens' := AddToken((index', offset'), TokenType.Number, tokens');
      index' := offset';
      offset' := offset' + 1;
      st' := Start;
    }
  }

  method IdArm(s: seq<AsciiChar>, c: AsciiChar, index: nat, offset: nat, at: nat, tokens: seq<Token>)
    returns (st': State, index': nat, offset': nat, at': nat, tokens': seq<Token>)
    requires IndicesFit(s, InId, index, offset, at) && at < |s| && c == s[at]
    ensures IndicesFit(s, st', index', offset', at')
    ensures IsLetter(c) ==> st' == InId && at' == at + 1 && tokens' == tokens
    ensures !IsLetter(c) ==> st' == Start && at' == at && tokens' == tokens + [WordToken(s, index, at)]
    ensures tokens' + Pending(s, st', index', offset', at') == tokens + Pending(s, InId, index, offset, at)
  {
    st', index', offset', at', tokens' := InId, index, offset, at, tokens;
    if IsLetter(c) {
      offset' := offset' + 1;
      at' := at' + 1;
      assert RunEnd(s, at, Letters) == RunEnd(s, at', Letters);
    } else {
      tokens' := AddToken((index', offset'), GetTokenType((index', offset'), s), tokens');
      index' := offset';
      offset' := offset' + 1;
      st' := Start;
    }
  }

  method AssignArm(s: seq<AsciiChar>, c: AsciiChar, index: nat, offset: nat, at: nat, tokens: seq<Token>)
    returns (st': State, index': nat, offset': nat, at': nat, tokens': seq<Token>)
    requires IndicesFit(s, InAssign, index, offset, at) && at < |s| && c == s[at]
    ensures IndicesFit(s, st', index', offset', at') && st' == Start
    ensures c == '=' ==> at' == at + 1 && tokens' == tokens + [Token.Symbol((at - 1, at + 1))]
    ensures c != '=' ==> at' == at && tokens' == tokens + [Token.Symbol((at - 1, at))]
    ensures tokens' + Pending(s, st', index', offset', at') == tokens + Pending(s, InAssign, index, offset, at)
  {
    st', index', offset', at', tokens' := InAssign, index, offset, at, tokens;
    if c == '=' {
      offset' := offset' + 1;
      tokens' := AddToken((index', offset'), TokenType.Symbol, tokens');
      index' := offset';
      offset' := offset' + 1;
      at' := at' + 1;
      st' := Start;
      assert tokens' + Pending(s, st', index', offset', at') == tokens + ([Token.Symbol((at - 1, at + 1))] + Lex(s, at'));
    } else {
      tokens' := AddToken((index', offset'), TokenType.Symbol, tokens');
      index' := offset';
      offset' := offset' + 1;
      st' := Start;
      assert tokens' + Pending(s, st', index', offset', at') == tokens + ([Token.Symbol((at - 1, at))] + Lex(s, at'));
    }
  }

  /**
   * The scanner of lexer.rs. It ends on every input (the measure: characters
   * left, then 1 inside a lexeme and 0 in the start state) and emits exactly
   * Lex(s, 0).
   */
  method Tokenize(s: seq<AsciiChar>) returns (tokens: seq<Token>)
    ensures tokens == Lex(s, 0)
  {
    var at: nat := 0;  // position of the character curr_char holds
    var currChar := CharAt(s, at);
    var currState := Start;
    tokens := [];
    var currIndex: nat, currOffset: nat := 0, 1;

    while currChar.Some?
      invariant currChar == CharAt(s, at)
      invariant IndicesFit(s, currState, currIndex, currOffset, at)
      invariant tokens + Pending(s, currState, currIndex, currOffset, at) == Lex(s, 0)
      decreases |s| - at, if currState == Start then 0 else 1
    {
      var c := currChar.value;
      match currState {
        case Start =>
          currState, currIndex, currOffset, at, tokens := StartArm(s, c, currIndex, currOffset, at, tokens);
        case InComment =>
          currState, currIndex, currOffset, at, tokens := CommentArm(s, c, currIndex, currOffset, at, tokens);
        case InNum =>
          currState, currIndex, currOffset, at, tokens := NumArm(s, c, currIndex, currOffset, at, tokens);
        case InId =>
          currState, currIndex, currOffset, at, tokens := IdArm(s, c, currIndex, currOffset, at, tokens);
        case InAssign =>
          currState, currIndex, currOffset, at, tokens := AssignArm(s, c, currIndex, currOffset, at, tokens);
      }
      currChar := CharAt(s, at);
    }
  }
}
