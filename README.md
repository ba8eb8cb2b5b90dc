# TinyParser scanner and tree printer, modelled in Dafny

This project models two pieces of TinyParser, a toolkit for the TINY teaching
language:

- **The scanner** (`tokenize` in tiny_lexer/src/lexer.rs). It is a five-state
  machine: START, INCOMMENT, INNUM, INID and INASSIGN. It walks the source one
  character at a time and keeps two indices, `curr_index` and `curr_offset`.
  It appends `(start, end)` spans tagged RESERVED, IDENTIFIER, NUMBER, COMMENT
  or SYMBOL.
- **The tree printer** of tiny_parser/src/main.rs. `jsonify_node` turns a
  parse-tree node into the JSON object the tree viewer draws. Beside it, `main`
  has rules for its command-line arguments and for the root it prints.

Files:

- `wrappers.dfy`: the `Option` and `Result` datatypes.
- `lexer.dfy` (module `Lexer`):
  - the token types, `get_token_type` and `add_token`;
  - `Lex`, a lexeme-by-lexeme reference definition of what the scanner emits;
  - `Tokenize`, the scanner's `while` loop as an imperative method, proved to
    return exactly `Lex(s, 0)` and to terminate.

  Each arm of the state match is a method of its own. Each arm's contract says
  what it emits and how far it moves. It also says that the tokens it emits,
  together with what is still pending in its new state, equal what was pending
  before.
- `lexer_props.dfy` (module `LexerProperties`): what the scanner's output
  promises, proved about `Lex`:
  - spans are in bounds, in order and disjoint;
  - each token has the shape of its lexeme class;
  - whitespace emits nothing;
  - the number, word, `:=`/`:` and comment lexemes each give the expected
    tokens;
  - a lexeme still open at the end of the input is dropped.
- `json.dfy` (module `Json`): a small JSON value, an object being an ordered
  list of fields, with key lookup.
- `tree_json.dfy` (module `TreeJson`):
  - `jsonify_node` as structural recursion;
  - `DescribesTree`, a key-by-key description of the object every node must
    map to, and a proof that every node of the tree meets it;
  - the argument rules of `main`: `args[3]` is a bool that defaults to true,
    and an optional `args[4]` switches on a class override;
  - the simplified-mode rule that prints the root's first child instead of the
    root.

The input to the scanner is a sequence of ASCII characters. Every character
is one byte wide, so a span's ends are character positions.

## Model

| member | source | states |
|---|---|---|
| Lexer.GetTokenType | tiny_lexer/src/lexer.rs:141-153 | The type is RESERVED exactly when the spanned text is one of if, then, else, repeat, end, until, read, write; otherwise it is IDENTIFIER. |
| Lexer.Token.GetSpan | tiny_lexer/src/lexer.rs:27-39 | Returns the span the token carries, whatever its variant. |
| Lexer.TokenRoundTrip | tiny_lexer/src/lexer.rs:27-39 | Rebuilding a token from its type and its `get_span` gives the same token back, so type and span determine a token. |
| Lexer.MakeToken | tiny_lexer/src/lexer.rs:155-163 | The token `add_token`'s match builds for a type and a span has that type, and `get_span` returns that same span, for every variant. |
| Lexer.AddToken | tiny_lexer/src/lexer.rs:155-163 | Appends exactly one token, of the variant named by the type and carrying the span. All earlier tokens are unchanged. |
| Lexer.NextLexeme | tiny_lexer/src/lexer.rs:52-137 | Every lexeme the scanner starts in START consumes at least one character and ends within the input. This is the termination argument for the reference definition. |
| Lexer.StartPending | tiny_lexer/src/lexer.rs:55-80 | From START, by the class of the current character, what remains to be emitted. Whitespace is skipped. '{' emits a symbol and opens a comment. A letter, digit or ':' opens its lexeme. Anything else is a one-character symbol. |
| Lexer.StartArm | tiny_lexer/src/lexer.rs:55-80 | Every START branch consumes exactly one character. Per branch: whitespace emits nothing, stays in START and adds one to both indices; '{' emits SYMBOL over it and enters INCOMMENT; a letter enters INID, a digit INNUM and ':' INASSIGN, emitting nothing; any other character emits a one-character SYMBOL and stays in START. The tokens emitted plus what is now pending equal what was pending before. |
| Lexer.StartConserves | tiny_lexer/src/lexer.rs:55-80 | For every outcome the START arm can have, the tokens it emits plus what is pending in the new state equal what was pending from START. |
| Lexer.CommentArm | tiny_lexer/src/lexer.rs:81-96 | '}' emits the comment body span and the '}' symbol, then returns to START. Any other character extends the comment and emits nothing. One character is consumed either way, and pending output is preserved. |
| Lexer.NumArm | tiny_lexer/src/lexer.rs:98-108 | A digit is consumed and extends the number. Any other character emits NUMBER over the run and returns to START without consuming that character. |
| Lexer.IdArm | tiny_lexer/src/lexer.rs:109-119 | A letter is consumed. Any other character emits the reserved-word or identifier token over the run and returns to START without consuming that character. |
| Lexer.AssignArm | tiny_lexer/src/lexer.rs:120-135 | Always returns to START. '=' is consumed and ':=' becomes one two-character SYMBOL. Otherwise ':' becomes a one-character SYMBOL and the current character is examined again. |
| Lexer.Tokenize | tiny_lexer/src/lexer.rs:43-139 | The scanner loop terminates on every input. Its measure is the characters left, then the state: a lexeme state decreases to START without consuming. It returns exactly the reference token list `Lex(s, 0)`. |
| LexerProperties.LexInOrder | tiny_lexer/src/lexer.rs:50-135 | Every emitted span (a, b) satisfies i <= a <= b <= \|s\|. Spans come out in order and do not overlap. |
| LexerProperties.LexShapes | tiny_lexer/src/lexer.rs:55-135 | Every emitted token has the shape of its class. NUMBER is a maximal digit run. RESERVED/IDENTIFIER is a maximal letter run, keyword or not. COMMENT lies between '{' and the first '}'. SYMBOL is one symbol character or ':='. |
| LexerProperties.NoTokenOnWhitespace | tiny_lexer/src/lexer.rs:56-59 | No token other than a comment covers a whitespace character. |
| LexerProperties.WhitespaceSkipped | tiny_lexer/src/lexer.rs:56-59 | A run of whitespace met in START emits nothing: the output from its start equals the output from its end. |
| LexerProperties.NumberLexeme | tiny_lexer/src/lexer.rs:68-70 | A maximal digit run followed by another character yields exactly one NUMBER whose span is that run. |
| LexerProperties.WordLexeme | tiny_lexer/src/lexer.rs:109-119 | A maximal letter run followed by another character yields exactly one token spanning that run. It is RESERVED if the run is a keyword and IDENTIFIER otherwise. |
| LexerProperties.ColonLexeme | tiny_lexer/src/lexer.rs:120-134 | ':=' yields one two-character SYMBOL. A ':' before any other character yields a one-character SYMBOL, and scanning resumes at that next character. |
| LexerProperties.CommentLexeme | tiny_lexer/src/lexer.rs:60-96 | '{ body }' yields SYMBOL '{', then COMMENT over the body (possibly empty), then SYMBOL '}'. |
| LexerProperties.OpenLexemeDropped | tiny_lexer/src/lexer.rs:52-138 | A trailing letter run, digit run or lone ':' at the end of the input emits nothing. An unclosed comment leaves only its '{' symbol. |
| LexerProperties.TokensWellFormed | tiny_lexer/src/lexer.rs:43-139 | The whole output of the scanner is in bounds, in order, and well shaped. |
| TreeJson.HtmlClass | tiny_parser/src/main.rs:41-50 | With the override on, the class is the override word. Otherwise it is "stmt" exactly for Stmt nodes, "error" exactly for Error nodes and "normie" exactly for the rest. |
| TreeJson.NodeObject | tiny_parser/src/main.rs:72-82 | The node object has the keys text, pseudo, span, children and HTMLclass, in that order, and each key holds its own part. |
| TreeJson.Jsonify | tiny_parser/src/main.rs:39-83 | Every node becomes an object with exactly the keys text, pseudo, span, children and HTMLclass, in insertion order. |
| TreeJson.JsonifyChildren | tiny_parser/src/main.rs:52-54 | The children array has one entry per child, in order. Each entry is the child mapped with the same two flags. |
| TreeJson.JsonifyDescribesNode | tiny_parser/src/main.rs:56-82 | The object has no key besides the five. The text payload (built by `Text`, main.rs:58-70): simplified text is {"value": text}. Otherwise it is {"type": name}, with the error kind for Error nodes and the debug name for the rest. pseudo is true exactly for Null nodes. span is [start, end]. The class follows HtmlClass. |
| TreeJson.JsonifyDescribesTree | tiny_parser/src/main.rs:39-83 | The description holds of every node in the tree, at every depth, with the same flags. |
| TreeJson.ParseBool | tiny_parser/src/main.rs:15 | Parsing a bool accepts exactly "true" and "false". |
| TreeJson.SimplifiedFlag | tiny_parser/src/main.rs:15-18 | The simplified flag is false exactly when `args[3]` is "false". Anything unparsable means true. |
| TreeJson.ParseArgs | tiny_parser/src/main.rs:12-24 | When `args` has at least four entries: input path `args[1]`, output path `args[2]`, the simplified flag from `args[3]`, and the override exactly when `args[4]` exists and equals the override word. With fewer entries, main stops at the first missing index. |
| TreeJson.TreeToPrint | tiny_parser/src/main.rs:29-31 | In simplified mode the printed tree is the root's first child, and a root without children stops main. Otherwise it is the root. |
| TreeJson.MainOutput | tiny_parser/src/main.rs:11-35 | Output exists exactly when `args` has at least four entries and, in simplified mode, the root has a child. Every node of the printed tree is then described by the object at its place. |

## Left out

- **Non-ASCII input.** Rust's `is_alphabetic` also accepts non-ASCII letters (`is_digit(10)` accepts only '0'..'9' for any character), and with multi-byte characters the `len_utf8` index arithmetic no longer keeps `curr_offset = curr_index + 1`. The input is ASCII here, so every character is one byte wide and a letter is one of a-z, A-Z.
- **Spans are `nat`.** `usize` overflow cannot occur for inputs that fit in memory.
- The scanner's `tokens` vector that `add_token` pushes onto through `&mut` is a local sequence that each step reassigns.
- The scanner's character iterator is a position `at`. `curr_char` is recomputed from it after every step, which gives the same value because an arm that does not consume leaves `at` unchanged.
- Each arm of the scanner's state match is a separate method called from the loop, not code inline in the loop body.
- **The parser.** The `parse(&src, simplified)`, `Node`, `NodeType` and `get_content` that tiny_parser/src/main.rs uses at lines 3, 27-28 and 37 are defined in none of the repository's files: tiny_parser/src/lib.rs has no `Node` and no `get_content`, its only `parse` takes no arguments, and its `NodeType` has no `Stmt`, `Error` or `Null`. They are modelled abstractly, and the root is given as a value.
- **Node types.** A node type is one of Stmt, Error, Null or any other type by its debug name. The payloads of Stmt and Error are given by their Debug renderings.
- **The override word.** The class name that `args[4]` switches on is one fixed word at tiny_parser/src/main.rs lines 21 and 42. The model takes it as the parameter `overrideWord` and does not reproduce it.
- **File I/O and text output.**
  - Reading the source file and writing the output file (tiny_parser/src/main.rs lines 26 and 34) are left out.
  - So is the `json` crate's text formatting: the model stops at the JSON value.
- **Panics.** Indexing past the end of the arguments and `children.remove(0)` on an empty list are modelled as a `MainError` result, not as a process abort.
- **Other parts of the repository.**
  - treant/index.js is HTTP routes, files and launching the executable.
  - tiny_parser/src/electron-app/main.js is the desktop window.
  - The demo drivers tiny_lexer/src/main.rs and TinyLanguage/src/main.rs only print tokens.
  - These are I/O and UI, and are not part of this model.
