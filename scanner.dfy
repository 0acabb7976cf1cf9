/** The nuPython lexer (scanner.cpp): the helpers that collect identifiers,
    numeric literals and string literals, the keyword table, scanner_init,
    and Scanner::nextToken with its line and column bookkeeping.

    The input stream is the text still to be read, `input`, with a cursor
    `pos`. Reading a character advances the cursor; putting it back with
    ungetc or putback, or looking at it with peek, leaves the cursor where it
    was. The line number, the column number and the token's `value` text are
    the reference parameters the source updates; here they come in as
    parameters and go out as results. */
module Scanner {
  import opened Numeric

  /** The token kinds the scanner produces. The keywords are numbered from
      nuPy_KEYW_AND in the order of `Keywords`. */
  datatype TokenId =
    | EOS | Unknown | Identifier | Keyword(index: nat)
    | IntLiteral | RealLiteral | StrLiteral
    | LeftParen | RightParen | LeftBracket | RightBracket | LeftBrace | RightBrace
    | Plus | Minus | Equal | EqualEqual | NotEqual | Lt | Le | Gt | Gte

  datatype Token = Token(id: TokenId, line: int, col: int)

  // ---------------------------------------------------------------------
  // Character classes of the "C" locale

  predicate IsAlpha(c: char)
  {
    'a' <= c <= 'z' || 'A' <= c <= 'Z'
  }

  /** A character that may start an identifier. */
  predicate IsIdStart(c: char)
  {
    IsAlpha(c) || c == '_'
  }

  /** A character that may continue an identifier: isalnum() or '_'. */
  predicate IsIdChar(c: char)
  {
    IsAlpha(c) || IsDigit(c) || c == '_'
  }

  /** The end of the longest run of identifier characters from `i`. */
  function IdEnd(s: string, i: nat): (j: nat)
    requires i <= |s|
    ensures i <= j <= |s|
    ensures forall k :: i <= k < j ==> IsIdChar(s[k])
    ensures j == |s| || !IsIdChar(s[j])
    decreases |s| - i
  {
    if i < |s| && IsIdChar(s[i]) then IdEnd(s, i + 1) else i
  }

  /** The first newline at or after `i`, or the end of the input. */
  function LineEnd(s: string, i: nat): (j: nat)
    requires i <= |s|
    ensures i <= j <= |s|
    ensures forall k :: i <= k < j ==> s[k] != '\n'
    ensures j == |s| || s[j] == '\n'
    decreases |s| - i
  {
    if i < |s| && s[i] != '\n' then LineEnd(s, i + 1) else i
  }

  /** Where a string literal opened by `delimiter` stops: at the same
      delimiter, at a newline, or at the end of the input. */
  function StringEnd(s: string, i: nat, delimiter: char): (j: nat)
    requires i <= |s|
    ensures i <= j <= |s|
    ensures forall k :: i <= k < j ==> s[k] != delimiter && s[k] != '\n'
    ensures j == |s| || s[j] == delimiter || s[j] == '\n'
    decreases |s| - i
  {
    if i < |s| && s[i] != delimiter && s[i] != '\n' then StringEnd(s, i + 1, delimiter) else i
  }

  // ---------------------------------------------------------------------
  // Keywords

  const Keywords: seq<string> :=
    ["and", "break", "continue", "def", "elif", "else",
     "False", "for", "if", "in", "is", "None",
     "not", "or", "pass", "return", "True", "while"]

  /** The position of the first occurrence of `value` in `words` at or after
      `i`, if any. */
  function FindWord(words: seq<string>, value: string, i: nat): (r: Option<nat>)
    requires i <= |words|
    ensures r.Some? ==> i <= r.value < |words| && words[r.value] == value
    ensures r.Some? ==> forall k :: i <= k < r.value ==> words[k] != value
    ensures r.None? ==> forall k :: i <= k < |words| ==> words[k] != value
    decreases |words| - i
  {
    if i == |words| then None
    else if words[i] == value then Some(i)
    else FindWord(words, value, i + 1)
  }

  /** id_or_keyword (scanner.cpp:33-47): the keyword's own token when `value`
      is exactly one of the 18 keywords (case matters), an identifier
      otherwise. */
  function IdOrKeyword(value: string): (id: TokenId)
    requires value != []
    ensures id.Identifier? <==> value !in Keywords
    ensures id.Keyword? ==> id.index < |Keywords| && Keywords[id.index] == value
    ensures id.Identifier? || id.Keyword?
  {
    match FindWord(Keywords, value, 0)
    case None => Identifier
    case Some(i) => Keyword(i)
  }

  /** No keyword is listed twice, so a keyword has exactly one token. */
  lemma KeywordsDistinct()
    ensures forall i, j :: 0 <= i < j < |Keywords| ==> Keywords[i] != Keywords[j]
  {
  }

  /** The keyword at index `i` scans as the i-th keyword token. */
  lemma {:induction false} KeywordToken(i: nat)
    requires i < |Keywords|
    ensures IdOrKeyword(Keywords[i]) == Keyword(i)
  {
    KeywordsDistinct();
    var id := IdOrKeyword(Keywords[i]);
    assert Keywords[i] in Keywords;
    assert id.Keyword? && Keywords[id.index] == Keywords[i];
  }

  // ---------------------------------------------------------------------
  // The collecting helpers

  /** What a helper leaves behind: the collected text, the cursor just past
      what it consumed, and the column number. */
  datatype Run = Run(value: string, pos: nat, col: int)

  /** collect_identifier (scanner.cpp:15-30), given the identifier's first
      character `c`, already read, and the cursor after it: the longest run
      of letters, digits and '_', one column per character. The character
      that ends the run is put back. */
  function IdentifierRun(input: string, pos: nat, c: char, col: int): (r: Run)
    requires pos <= |input| && IsIdStart(c)
    ensures |r.value| >= 1 && r.value[0] == c
    ensures forall k :: 0 <= k < |r.value| ==> IsIdChar(r.value[k])
    ensures pos <= r.pos <= |input| && r.value[1..] == input[pos..r.pos]
    ensures r.pos == |input| || !IsIdChar(input[r.pos])
    ensures r.col == col + |r.value|
  {
    var e := IdEnd(input, pos);
    Run([c] + input[pos..e], e, col + 1 + (e - pos))
  }

  method CollectIdentifier(input: string, pos: nat, c: char, col: int) returns (value: string, pos': nat, col': int)
    requires pos <= |input| && IsIdStart(c)
    ensures Run(value, pos', col') == IdentifierRun(input, pos, c, col)
  {
    // value.clear(), then the first pass of the loop, which `c` passes
    value := [c];
    col' := col + 1;
    pos' := pos;
    while pos' < |input| && IsIdChar(input[pos'])
      invariant pos <= pos' <= |input|
      invariant IdEnd(input, pos') == IdEnd(input, pos)
      invariant value == [c] + input[pos..pos'] && col' == col + 1 + (pos' - pos)
      decreases |input| - pos'
    {
      value := value + [input[pos']];
      col' := col' + 1;
      pos' := pos' + 1;
    }
  }

  /** The sign collect_numeric_literal writes for its `prefix` argument. */
  function PrefixText(prefix: int): string
  {
    if prefix == 1 then "+" else if prefix == 2 then "-" else ""
  }

  datatype Literal = Literal(id: TokenId, value: string, pos: nat, col: int)

  /** collect_numeric_literal (scanner.cpp:51-96), given the first digit `c`
      and the cursor from which the helper reads on. It APPENDS to `value`:
      the sign selected by `prefix`, then the digits; a '.' after them makes
      a real literal, whose fraction digits may be none. One column per digit
      and per '.'. */
  function NumericRun(input: string, pos: nat, c: char, col: int, value: string, prefix: int): (r: Literal)
    requires pos <= |input| && IsDigit(c)
    ensures r.id == IntLiteral || r.id == RealLiteral
    ensures var head := value + PrefixText(prefix);
      |r.value| > |head| && r.value[..|head|] == head && r.value[|head|] == c &&
      r.col == col + (|r.value| - |head|)
    ensures pos <= r.pos <= |input|
    ensures r.id == IntLiteral <==> DigitsEnd(input, pos) == |input| || input[DigitsEnd(input, pos)] != '.'
    ensures r.id == IntLiteral ==> r.value == value + PrefixText(prefix) + [c] + input[pos..r.pos] && AllDigits(input[pos..r.pos])
    ensures r.id == RealLiteral ==>
      var e := DigitsEnd(input, pos);
      e < |input| && input[e] == '.' && e + 1 <= r.pos &&
      r.value == value + PrefixText(prefix) + [c] + input[pos..e] + "." + input[e + 1..r.pos] &&
      AllDigits(input[e + 1..r.pos])
    ensures r.pos == |input| || !IsDigit(input[r.pos])
  {
    var head := value + PrefixText(prefix) + [c];
    var e := DigitsEnd(input, pos);
    if e == |input| || input[e] != '.' then
      Literal(IntLiteral, head + input[pos..e], e, col + 1 + (e - pos))
    else
      var f := DigitsEnd(input, e + 1);
      Literal(RealLiteral, head + input[pos..e] + "." + input[e + 1..f], f, col + 2 + (e - pos) + (f - e - 1))
  }

  /** NumericRun once the end of the digits is known. */
  lemma NumericRunWhole(input: string, pos: nat, c: char, col: int, value: string, prefix: int, e: nat)
    requires pos <= |input| && IsDigit(c) && e == DigitsEnd(input, pos)
    requires e == |input| || input[e] != '.'
    ensures NumericRun(input, pos, c, col, value, prefix) ==
      Literal(IntLiteral, value + PrefixText(prefix) + [c] + input[pos..e], e, col + 1 + (e - pos))
  {
  }

  /** NumericRun once the ends of both runs of digits are known. */
  lemma NumericRunFraction(input: string, pos: nat, c: char, col: int, value: string, prefix: int, e: nat, f: nat)
    requires pos <= |input| && IsDigit(c) && e == DigitsEnd(input, pos)
    requires e < |input| && input[e] == '.' && f == DigitsEnd(input, e + 1)
    ensures NumericRun(input, pos, c, col, value, prefix) ==
      Literal(RealLiteral, value + PrefixText(prefix) + [c] + input[pos..e] + "." + input[e + 1..f], f,
              col + 2 + (e - pos) + (f - e - 1))
  {
  }

  /** The two digit loops of collect_numeric_literal: append the run of
      digits that starts at `pos`, one character and one column each. */
  method CollectDigits(input: string, pos: nat, value: string, col: int)
    returns (value': string, pos': nat, col': int)
    requires pos <= |input|
    ensures pos' == DigitsEnd(input, pos)
    ensures value' == value + input[pos..pos'] && col' == col + (pos' - pos)
  {
    value', col', pos' := value, col, pos;
    while pos' < |input| && IsDigit(input[pos'])
      invariant pos <= pos' <= |input|
      invariant DigitsEnd(input, pos') == DigitsEnd(input, pos)
      invariant value' == value + input[pos..pos'] && col' == col + (pos' - pos)
      decreases |input| - pos'
    {
      assert input[pos..pos' + 1] == input[pos..pos'] + [input[pos']];
      value' := value' + [input[pos']];
      col' := col' + 1;
      pos' := pos' + 1;
    }
  }

  method CollectNumericLiteral(input: string, pos: nat, c: char, col: int, value: string, prefix: int)
    returns (id: TokenId, value': string, pos': nat, col': int)
    requires pos <= |input| && IsDigit(c) && 0 <= prefix <= 2
    ensures Literal(id, value', pos', col') == NumericRun(input, pos, c, col, value, prefix)
  {
    value', pos', col' := CollectDigits(input, pos, value + PrefixText(prefix) + [c], col + 1);
    ghost var e := pos';
    if pos' == |input| || input[pos'] != '.' {
      NumericRunWhole(input, pos, c, col, value, prefix, e);
      return IntLiteral, value', pos', col';
    }
    value', pos', col' := CollectDigits(input, pos' + 1, value' + ".", col' + 1);
    NumericRunFraction(input, pos, c, col, value, prefix, e, pos');
    id := RealLiteral;
  }

  /** The message collect_string_literal prints when a literal has no
      closing delimiter. */
  function NotTerminated(startLine: int, startCol: int): string
  {
    "**WARNING: string literal @ (" + IntText(startLine) + ", " + IntText(startCol) + ") not terminated properly\n"
  }

  datatype Quoted = Quoted(value: string, pos: nat, col: int, printed: string)

  /** collect_string_literal (scanner.cpp:99-124), given the opening
      delimiter `c` and the cursor after it: the characters strictly between
      the delimiters; only the matching delimiter is consumed, and a literal
      cut short by a newline or the end of the input prints a warning. */
  function StringRun(input: string, pos: nat, c: char, col: int, startLine: int, startCol: int): (r: Quoted)
    requires pos <= |input| && (c == '"' || c == '\'')
    ensures c !in r.value && '\n' !in r.value
    ensures var e := pos + |r.value|;
      e <= |input| && input[pos..e] == r.value &&
      (if e < |input| && input[e] == c
       then r.pos == e + 1 && r.col == col + |r.value| + 2 && r.printed == []
       else r.pos == e && (e == |input| || input[e] == '\n') &&
            r.col == col + |r.value| + 1 && r.printed == NotTerminated(startLine, startCol))
  {
    var e := StringEnd(input, pos, c);
    if e < |input| && input[e] == c then Quoted(input[pos..e], e + 1, col + 2 + (e - pos), [])
    else Quoted(input[pos..e], e, col + 1 + (e - pos), NotTerminated(startLine, startCol))
  }

  method CollectStringLiteral(input: string, pos: nat, c: char, col: int, startLine: int, startCol: int)
    returns (value: string, pos': nat, col': int, printed: string)
    requires pos <= |input| && (c == '"' || c == '\'')
    ensures Quoted(value, pos', col', printed) == StringRun(input, pos, c, col, startLine, startCol)
  {
    col' := col + 1;
    pos' := pos;
    value := [];
    while pos' < |input| && input[pos'] != c && input[pos'] != '\n'
      invariant pos <= pos' <= |input|
      invariant StringEnd(input, pos', c) == StringEnd(input, pos, c)
      invariant value == input[pos..pos'] && col' == col + 1 + (pos' - pos)
      decreases |input| - pos'
    {
      value := value + [input[pos']];
      col' := col' + 1;
      pos' := pos' + 1;
    }
    if pos' == |input| || input[pos'] == '\n' {
      printed := NotTerminated(startLine, startCol);
    } else {
      col' := col' + 1;
      pos' := pos' + 1;
      printed := [];
    }
  }

  // ---------------------------------------------------------------------
  // scanner_init and nextToken

  /** scanner_init (scanner.cpp:126-131): line 1, column 1, empty value. */
  function ScannerInit(): (r: (int, int, string))
    ensures r.0 == 1 && r.1 == 1 && r.2 == []
  {
    (1, 1, [])
  }

  /** nextToken either produces a token or throws std::invalid_argument. */
  datatype Outcome = Produced(token: Token) | Thrown

  /** The result of one call: the outcome, the cursor, the line and column
      numbers, the value text, and what was printed on the way. */
  datatype Scanned = Scanned(outcome: Outcome, pos: nat, line: int, col: int, value: string, printed: string)

  /** A token of one character that is consumed. */
  function Single(input: string, pos: nat, line: int, col: int, id: TokenId): (r: Scanned)
    requires pos < |input|
    ensures r.outcome == Produced(Token(id, line, col)) && r.value == [input[pos]]
    ensures r.pos == pos + 1 && r.line == line && r.col == col + 1 && r.printed == []
  {
    Scanned(Produced(Token(id, line, col)), pos + 1, line, col + 1, [input[pos]], [])
  }

  /** Scanner::nextToken (scanner.cpp:144-393) as written. */
  function Scan(input: string, pos: nat, line: int, col: int, value: string): (r: Scanned)
    requires pos <= |input|
    ensures value == [] ==> r == Scanned(Thrown, pos, line, col, value, [])
    ensures value != [] ==> r.outcome.Produced?
  {
    if value == [] then Scanned(Thrown, pos, line, col, value, [])
    else ScanFrom(input, pos, line, col, value)
  }

  /** The loop of nextToken: newlines, other white space and comments are
      skipped, the end of the input is the end-of-stream token, and any
      other character starts a token (TokenAt). The source tests these
      characters in one chain; they are distinct, so the order of the tests
      does not matter.

      Every token but the end of the input consumes at least one character,
      and the line and column numbers never decrease. */
  function ScanFrom(input: string, pos: nat, line: int, col: int, value: string): (r: Scanned)
    requires pos <= |input|
    ensures r.outcome.Produced?
    ensures pos <= r.pos <= |input|
    ensures r.outcome.token.id != EOS ==> r.pos > pos
    ensures r.line >= line && (r.line == line ==> r.col >= col)
    decreases |input| - pos
  {
    if pos == |input| then
      Scanned(Produced(Token(EOS, line, col)), pos, line, col, "$", [])
    else if input[pos] == '\n' then ScanFrom(input, pos + 1, line + 1, 1, value)
    else if IsSpace(input[pos]) then ScanFrom(input, pos + 1, line, col + 1, value)
    else if input[pos] == '#' then
      var e := LineEnd(input, pos + 1);
      ScanFrom(input, e, line, col + (e - pos - 1), value)
    else TokenAt(input, pos, line, col, value)
  }

  /** The token that starts with the character at `pos`, as the braces of
      nextToken actually nest. The '-' branch holds the '=', '!' and '<'
      cases, which test the character peek() returned and then read that same
      character with get(); at the top level '=', '!' and '<' are unknown
      characters. The calls to the helpers pass the arguments the source
      passes: a peeked digit after '+' or '-' is still in the stream when
      collect_numeric_literal reads on, the `true`/`false` passed as prefix
      select 1 and 0, and a literal that starts with a digit is appended to
      the previous value. */
  function TokenAt(input: string, pos: nat, line: int, col: int, value: string): (r: Scanned)
    requires pos < |input| && !IsSpace(input[pos]) && input[pos] != '#'
    ensures r.outcome.Produced? && r.outcome.token.line == line && r.line == line
    ensures pos < r.pos <= |input| && r.col > col
    ensures r.outcome.token.id == EOS <==> input[pos] == '$'
  {
    var c := input[pos];
    if c == '$' then Single(input, pos, line, col, EOS)
    else if c == '(' then Single(input, pos, line, col, LeftParen)
    else if c == ')' then Single(input, pos, line, col, RightParen)
    else if IsIdStart(c) then
      var run := IdentifierRun(input, pos + 1, c, col);
      Scanned(Produced(Token(IdOrKeyword(run.value), line, col)), run.pos, line, run.col, run.value, [])
    else if c == '[' then Single(input, pos, line, col, LeftBracket)
    else if c == ']' then Single(input, pos, line, col, RightBracket)
    else if c == '{' then Single(input, pos, line, col, LeftBrace)
    else if c == '}' then Single(input, pos, line, col, RightBrace)
    else if c == '+' then
      if pos + 1 < |input| && IsDigit(input[pos + 1]) then
        var lit := NumericRun(input, pos + 1, input[pos + 1], col + 1, "+", 1);
        Scanned(Produced(Token(lit.id, line, col)), lit.pos, line, lit.col, lit.value, [])
      else Single(input, pos, line, col, Plus)
    else if c == '-' then
      if pos + 1 < |input| && IsDigit(input[pos + 1]) then
        var lit := NumericRun(input, pos + 1, input[pos + 1], col + 1, "-", 0);
        Scanned(Produced(Token(lit.id, line, col)), lit.pos, line, lit.col, lit.value, [])
      else if pos + 1 < |input| && input[pos + 1] == '=' then
        Scanned(Produced(Token(EqualEqual, line, col + 1)), pos + 2, line, col + 3, "==", [])
      else if pos + 1 < |input| && input[pos + 1] == '!' then
        Scanned(Produced(Token(Unknown, line, col + 1)), pos + 1, line, col + 2, "!", [])
      else if pos + 1 < |input| && input[pos + 1] == '<' then
        Scanned(Produced(Token(Lt, line, col + 1)), pos + 1, line, col + 2, "<", [])
      else
        Single(input, pos, line, col, Minus)
    else if c == '>' then
      if pos + 1 < |input| && input[pos + 1] == '=' then
        Scanned(Produced(Token(Gte, line, col)), pos + 2, line, col + 2, ">=", [])
      else Single(input, pos, line, col, Gt)
    else if IsDigit(c) then
      var lit := NumericRun(input, pos + 1, c, col, value, 0);
      Scanned(Produced(Token(lit.id, line, col)), lit.pos, line, lit.col, lit.value, [])
    else if c == '"' || c == '\'' then
      var q := StringRun(input, pos + 1, c, col, line, col);
      Scanned(Produced(Token(StrLiteral, line, col)), q.pos, line, q.col, q.value, q.printed)
    else
      Single(input, pos, line, col, Unknown)
  }

  method NextToken(input: string, pos: nat, line: int, col: int, value: string)
    returns (outcome: Outcome, pos': nat, line': int, col': int, value': string, printed: string)
    requires pos <= |input|
    ensures Scanned(outcome, pos', line', col', value', printed) == Scan(input, pos, line, col, value)
  {
    if value == [] {
      return Thrown, pos, line, col, value, [];
    }
    pos', line', col' := pos, line, col;
    while true
      invariant pos' <= |input|
      invariant ScanFrom(input, pos', line', col', value) == ScanFrom(input, pos, line, col, value)
      decreases |input| - pos'
    {
      if pos' == |input| {
        return Produced(Token(EOS, line', col')), pos', line', col', "$", [];
      }
      var c := input[pos'];
      if c == '\n' {
        line' := line' + 1;
        col' := 1;
        pos' := pos' + 1;
      } else if IsSpace(c) {
        col' := col' + 1;
        pos' := pos' + 1;
      } else if c == '#' {
        // the rest of the line is read and dropped; its newline is put back
        ghost var start, commentCol := pos', col';
        pos' := pos' + 1;
        while pos' < |input| && input[pos'] != '\n'
          invariant start < pos' <= |input|
          invariant LineEnd(input, pos') == LineEnd(input, start + 1)
          invariant col' == commentCol + (pos' - start - 1)
          decreases |input| - pos'
        {
          col' := col' + 1;
          pos' := pos' + 1;
        }
      } else {
        outcome, pos', line', col', value', printed := ScanToken(input, pos', line', col', value);
        return;
      }
    }
  }

  /** The branches of nextToken that return a token. */
  method ScanToken(input: string, pos: nat, line: int, col: int, value: string)
    returns (outcome: Outcome, pos': nat, line': int, col': int, value': string, printed: string)
    requires pos < |input| && !IsSpace(input[pos]) && input[pos] != '#'
    ensures Scanned(outcome, pos', line', col', value', printed) == TokenAt(input, pos, line, col, value)
  {
    var c := input[pos];
    pos', line', col', value', printed := pos + 1, line, col, value, [];
    if c == '$' || c == '(' || c == ')' || c == '[' || c == ']' || c == '{' || c == '}' {
      var id := if c == '$' then EOS else if c == '(' then LeftParen else if c == ')' then RightParen
        else if c == '[' then LeftBracket else if c == ']' then RightBracket
        else if c == '{' then LeftBrace else RightBrace;
      return Produced(Token(id, line, col)), pos', line, col + 1, [c], printed;
    } else if IsIdStart(c) {
      value', pos', col' := CollectIdentifier(input, pos', c, col);
      return Produced(Token(IdOrKeyword(value'), line, col)), pos', line, col', value', printed;
    } else if c == '+' || c == '-' {
      outcome, pos', col', value' := ScanSign(input, pos, line, col, value);
    } else if c == '>' {
      outcome := Produced(Token(Gt, line, col));
      col' := col + 1;
      value' := ">";
      if pos' < |input| && input[pos'] == '=' {
        outcome := Produced(Token(Gte, line, col));
        col' := col' + 1;
        value' := ">=";
        pos' := pos' + 1;
      }
    } else if IsDigit(c) {
      var id;
      id, value', pos', col' := CollectNumericLiteral(input, pos', c, col, value, 0);
      outcome := Produced(Token(id, line, col));
    } else if c == '"' || c == '\'' {
      value', pos', col', printed := CollectStringLiteral(input, pos', c, col, line, col);
      outcome := Produced(Token(StrLiteral, line, col));
    } else {
      outcome := Produced(Token(Unknown, line, col));
      col' := col + 1;
      value' := [c];
    }
  }

  /** The '+' and '-' branches of nextToken. */
  method ScanSign(input: string, pos: nat, line: int, col: int, value: string)
    returns (outcome: Outcome, pos': nat, col': int, value': string)
    requires pos < |input| && (input[pos] == '+' || input[pos] == '-')
    ensures Scanned(outcome, pos', line, col', value', []) == TokenAt(input, pos, line, col, value)
  {
    var c := input[pos];
    pos' := pos + 1;
    col' := col + 1;
    value' := [c];
    if pos' < |input| && IsDigit(input[pos']) {
      // the digit was only peeked at: the helper reads it once more
      var id;
      id, value', pos', col' := CollectNumericLiteral(input, pos', input[pos'], col', value', if c == '+' then 1 else 0);
      return Produced(Token(id, line, col)), pos', col', value';
    }
    if c == '+' {
      return Produced(Token(Plus, line, col)), pos', col', value';
    }
    if pos' < |input| && input[pos'] == '=' {
      // the peeked '=' is then read with get(), so it always matches
      return Produced(Token(EqualEqual, line, col')), pos' + 1, col' + 2, "==";
    } else if pos' < |input| && input[pos'] == '!' {
      // get() returns the peeked '!' itself, which is put back
      return Produced(Token(Unknown, line, col')), pos', col' + 1, "!";
    } else if pos' < |input| && input[pos'] == '<' {
      return Produced(Token(Lt, line, col')), pos', col' + 1, "<";
    }
    // the peeked character cannot be '=' here; it is put back
    return Produced(Token(Minus, line, col)), pos', col', value';
  }

  // ---------------------------------------------------------------------
  // What nextToken does, character by character

  /** The end of the input and '$' both end the stream with value "$"; '$'
      is consumed and takes a column, the end of the input does not. */
  lemma EndOfStream(input: string, pos: nat, line: int, col: int, value: string)
    requires pos <= |input| && value != []
    requires pos == |input| || input[pos] == '$'
    ensures var r := Scan(input, pos, line, col, value);
      r.outcome == Produced(Token(EOS, line, col)) && r.value == "$" &&
      r.pos == (if pos == |input| then pos else pos + 1) &&
      r.line == line && r.col == (if pos == |input| then col else col + 1)
  {
  }

  /** A run of white space other than newlines moves the column by its
      length; a newline moves to column 1 of the next line. */
  lemma {:induction false} BlanksSkipped(input: string, pos: nat, q: nat, line: int, col: int, value: string)
    requires pos <= q <= |input|
    requires forall k :: pos <= k < q ==> IsSpace(input[k]) && input[k] != '\n'
    ensures ScanFrom(input, pos, line, col, value) == ScanFrom(input, q, line, col + (q - pos), value)
    ensures q < |input| && input[q] == '\n' ==>
      ScanFrom(input, pos, line, col, value) == ScanFrom(input, q + 1, line + 1, 1, value)
    decreases q - pos
  {
    if pos < q {
      BlanksSkipped(input, pos + 1, q, line, col + 1, value);
    }
  }

  /** A comment runs to the end of its line; the newline is left for the
      next round, so the token after it is on the next line, at column 1. */
  lemma CommentSkipped(input: string, pos: nat, line: int, col: int, value: string)
    requires pos < |input| && input[pos] == '#'
    ensures var e := LineEnd(input, pos + 1);
      ScanFrom(input, pos, line, col, value) ==
      if e == |input| then Scanned(Produced(Token(EOS, line, col + (e - pos - 1))), e, line, col + (e - pos - 1), "$", [])
      else ScanFrom(input, e + 1, line + 1, 1, value)
  {
  }

  /** An identifier is the longest run of identifier characters; its token
      is the keyword's when the run is a keyword. */
  lemma IdentifierToken(input: string, pos: nat, line: int, col: int, value: string)
    requires pos < |input| && IsIdStart(input[pos]) && value != []
    ensures var r := Scan(input, pos, line, col, value);
      var e := IdEnd(input, pos + 1);
      r.value == input[pos..e] && r.pos == e && r.col == col + (e - pos) &&
      r.outcome == Produced(Token(IdOrKeyword(input[pos..e]), line, col))
  {
    var e := IdEnd(input, pos + 1);
    assert [input[pos]] + input[pos + 1..e] == input[pos..e];
  }

  /** '>' followed by '=' is one token, ">=": otherwise '>' stands alone and
      the next character is left in the stream. */
  lemma GreaterToken(input: string, pos: nat, line: int, col: int, value: string)
    requires pos < |input| && input[pos] == '>' && value != []
    ensures var r := Scan(input, pos, line, col, value);
      if pos + 1 < |input| && input[pos + 1] == '='
      then r.outcome == Produced(Token(Gte, line, col)) && r.value == ">=" && r.pos == pos + 2 && r.col == col + 2
      else r.outcome == Produced(Token(Gt, line, col)) && r.value == ">" && r.pos == pos + 1 && r.col == col + 1
  {
  }

  /** A character no branch recognises is an unknown token of its own. */
  lemma UnknownCharacter(input: string, pos: nat, line: int, col: int, value: string)
    requires pos < |input| && value != []
    requires var c := input[pos];
      !IsSpace(c) && !IsIdStart(c) && !IsDigit(c) && c !in "$()[]{}+->#\"'"
    ensures var r := Scan(input, pos, line, col, value);
      r.outcome == Produced(Token(Unknown, line, col)) && r.value == [input[pos]] &&
      r.pos == pos + 1 && r.col == col + 1
  {
    var c := input[pos];
    assert c != '$' && c != '(' && c != ')' && c != '[' && c != ']' && c != '{' && c != '}';
    assert c != '+' && c != '-' && c != '>' && c != '#' && c != '"' && c != '\'';
  }

  /** A string literal: the text between the delimiters, the closing one
      consumed, and a warning when the line or the input ends first. */
  lemma StringToken(input: string, pos: nat, line: int, col: int, value: string)
    requires pos < |input| && (input[pos] == '"' || input[pos] == '\'') && value != []
    ensures var r := Scan(input, pos, line, col, value);
      var e := StringEnd(input, pos + 1, input[pos]);
      r.outcome == Produced(Token(StrLiteral, line, col)) && r.value == input[pos + 1..e] &&
      (r.printed == [] <==> e < |input| && input[e] == input[pos])
  {
  }

  // ---------------------------------------------------------------------
  // What the damaged nextToken does, and what it was meant to do

  /** As written, nextToken never produces '=', '!=' or '<=': the branches
      that would are reachable only after a '-', and there they read the
      character they have just peeked at. */
  lemma {:induction false} NoEqualityTokens(input: string, pos: nat, line: int, col: int, value: string)
    requires pos <= |input|
    ensures var id := Scan(input, pos, line, col, value).outcome;
      id.Produced? ==> id.token.id != Equal && id.token.id != NotEqual && id.token.id != Le
  {
    if value != [] {
      ScanFromNoEquality(input, pos, line, col, value);
    }
  }

  lemma {:induction false} ScanFromNoEquality(input: string, pos: nat, line: int, col: int, value: string)
    requires pos <= |input|
    ensures var id := ScanFrom(input, pos, line, col, value).outcome.token.id;
      id != Equal && id != NotEqual && id != Le
    decreases |input| - pos
  {
    if pos == |input| {
    } else if input[pos] == '\n' {
      ScanFromNoEquality(input, pos + 1, line + 1, 1, value);
    } else if IsSpace(input[pos]) {
      ScanFromNoEquality(input, pos + 1, line, col + 1, value);
    } else if input[pos] == '#' {
      var e := LineEnd(input, pos + 1);
      ScanFromNoEquality(input, e, line, col + (e - pos - 1), value);
    } else {
      TokenAtNoEquality(input, pos, line, col, value);
    }
  }

  lemma TokenAtNoEquality(input: string, pos: nat, line: int, col: int, value: string)
    requires pos < |input| && !IsSpace(input[pos]) && input[pos] != '#'
    ensures var id := TokenAt(input, pos, line, col, value).outcome.token.id;
      id != Equal && id != NotEqual && id != Le
  {
  }

  /** As written, "==" is two unknown tokens and "-=" is a single '=='. */
  lemma EqualsAsWritten(input: string, pos: nat, line: int, col: int, value: string)
    requires pos + 1 < |input| && value != []
    ensures input[pos] == '=' ==>
      Scan(input, pos, line, col, value) == Scanned(Produced(Token(Unknown, line, col)), pos + 1, line, col + 1, "=", [])
    ensures input[pos] == '-' && input[pos + 1] == '=' ==>
      Scan(input, pos, line, col, value) == Scanned(Produced(Token(EqualEqual, line, col + 1)), pos + 2, line, col + 3, "==", [])
  {
  }

  /** As written, the digit after a '+' is only peeked at, so the helper
      collects it twice, after a second '+': "+5" scans as "++55". */
  lemma SignedLiteralAsWritten()
    ensures Scan("+5", 0, 1, 1, "$") == Scanned(Produced(Token(IntLiteral, 1, 1)), 2, 1, 4, "++55", [])
  {
    var s := "+5";
    assert DigitsEnd(s, 1) == 2;
    assert s[1..2] == "5";
  }

  /** As written, a literal that starts with a digit is appended to the
      previous token's text: "5" after the token "x" has value "x5". */
  lemma DigitLiteralAsWritten()
    ensures Scan("5", 0, 1, 2, "x") == Scanned(Produced(Token(IntLiteral, 1, 2)), 1, 1, 3, "x5", [])
  {
    var s := "5";
    assert DigitsEnd(s, 1) == 1;
  }

  /** As written, the first call after scanner_init throws, because the
      value it leaves is empty. */
  lemma FirstCallThrows(input: string)
    ensures var (line, col, value) := ScannerInit();
      Scan(input, 0, line, col, value).outcome == Thrown
  {
  }

  /** The token that starts at `pos` as nextToken evidently means it: '=',
      '==', '!=', '<' and '<=' at the top level, a '-' that stands for
      itself, a sign taken together with the digits that follow it, and a
      literal that does not carry the previous token's text. The other
      characters are handled as written. */
  function TokenIntended(input: string, pos: nat, line: int, col: int): (r: Scanned)
    requires pos < |input| && !IsSpace(input[pos]) && input[pos] != '#'
    ensures r.outcome.Produced? && r.outcome.token == Token(r.outcome.token.id, line, col) && r.line == line
    ensures pos < r.pos <= |input| && r.col == col + (r.pos - pos)
  {
    var c := input[pos];
    var next := if pos + 1 < |input| then input[pos + 1] else '$';
    if (c == '+' || c == '-') && pos + 1 < |input| && IsDigit(next) then
      var lit := NumericRun(input, pos + 2, next, col + 1, "", if c == '+' then 1 else 2);
      Scanned(Produced(Token(lit.id, line, col)), lit.pos, line, lit.col, lit.value, [])
    else if c == '-' then Single(input, pos, line, col, Minus)
    else if c == '=' || c == '!' || c == '<' then
      if pos + 1 < |input| && next == '=' then
        var id := if c == '=' then EqualEqual else if c == '!' then NotEqual else Le;
        Scanned(Produced(Token(id, line, col)), pos + 2, line, col + 2, [c, '='], [])
      else Single(input, pos, line, col, if c == '=' then Equal else if c == '!' then Unknown else Lt)
    else if IsDigit(c) then
      var lit := NumericRun(input, pos + 1, c, col, "", 0);
      Scanned(Produced(Token(lit.id, line, col)), lit.pos, line, lit.col, lit.value, [])
    else
      var r := TokenAt(input, pos, line, col, [c]);
      assert r.col == col + (r.pos - pos) by {
        if IsIdStart(c) {
        } else if c == '"' || c == '\'' {
        }
      }
      r
  }

  /** nextToken as evidently intended: TokenIntended after the same
      skipping of blanks and comments, and no exception for an empty value. */
  function ScanIntended(input: string, pos: nat, line: int, col: int): (r: Scanned)
    requires pos <= |input|
    ensures r.outcome.Produced? && pos <= r.pos <= |input|
    ensures r.outcome.token.id != EOS ==> r.pos > pos
    decreases |input| - pos
  {
    if pos == |input| then
      Scanned(Produced(Token(EOS, line, col)), pos, line, col, "$", [])
    else if input[pos] == '\n' then ScanIntended(input, pos + 1, line + 1, 1)
    else if IsSpace(input[pos]) then ScanIntended(input, pos + 1, line, col + 1)
    else if input[pos] == '#' then
      var e := LineEnd(input, pos + 1);
      ScanIntended(input, e, line, col + (e - pos - 1))
    else TokenIntended(input, pos, line, col)
  }

  /** The comparison operators as intended: '=' and '!' and '<' take a
      following '=' into one token, and otherwise stand alone. */
  lemma ComparisonIntended(input: string, pos: nat, line: int, col: int)
    requires pos < |input| && (input[pos] == '=' || input[pos] == '!' || input[pos] == '<')
    ensures var r := ScanIntended(input, pos, line, col);
      var c := input[pos];
      if pos + 1 < |input| && input[pos + 1] == '='
      then r.pos == pos + 2 && r.value == [c, '='] &&
           r.outcome.token.id == (if c == '=' then EqualEqual else if c == '!' then NotEqual else Le)
      else r.pos == pos + 1 && r.value == [c] &&
           r.outcome.token.id == (if c == '=' then Equal else if c == '!' then Unknown else Lt)
  {
  }

  /** As intended, a sign and the digits after it make one literal whose
      text is the sign followed by the digits; the digits are read once. */
  lemma SignedLiteralIntended(input: string, pos: nat, line: int, col: int)
    requires pos + 1 < |input| && (input[pos] == '+' || input[pos] == '-') && IsDigit(input[pos + 1])
    ensures var r := ScanIntended(input, pos, line, col);
      var e := DigitsEnd(input, pos + 1);
      r.outcome.token.id == IntLiteral <==> e == |input| || input[e] != '.'
    ensures var r := ScanIntended(input, pos, line, col);
      r.value == input[pos..r.pos] && r.col == col + |r.value|
  {
    var c := input[pos];
    var prefix := if c == '+' then 1 else 2;
    var lit := NumericRun(input, pos + 2, input[pos + 1], col + 1, "", prefix);
    SignedLiteralStep(input, pos, line, col, lit);
    FreshLiteral(input, pos + 2, col + 1, prefix, lit);
    DigitsEndStep(input, pos + 1);
    SliceCons(input, pos, lit.pos);
  }

  lemma DigitsEndStep(s: string, i: nat)
    requires i < |s| && IsDigit(s[i])
    ensures DigitsEnd(s, i) == DigitsEnd(s, i + 1)
  {
  }

  lemma SliceCons(s: string, i: nat, j: nat)
    requires i < j <= |s|
    ensures s[i..j] == [s[i]] + s[i + 1..j]
  {
  }

  lemma SignedLiteralStep(input: string, pos: nat, line: int, col: int, lit: Literal)
    requires pos + 1 < |input| && (input[pos] == '+' || input[pos] == '-') && IsDigit(input[pos + 1])
    requires lit == NumericRun(input, pos + 2, input[pos + 1], col + 1, "", if input[pos] == '+' then 1 else 2)
    ensures ScanIntended(input, pos, line, col) ==
      Scanned(Produced(Token(lit.id, line, col)), lit.pos, line, lit.col, lit.value, [])
  {
    assert ScanIntended(input, pos, line, col) == TokenIntended(input, pos, line, col);
  }

  /** As intended, a literal that starts with a digit holds exactly the
      characters it consumed, whatever the previous token was. */
  lemma DigitLiteralIntended(input: string, pos: nat, line: int, col: int)
    requires pos < |input| && IsDigit(input[pos])
    ensures var r := ScanIntended(input, pos, line, col);
      r.outcome.token.id == IntLiteral <==> DigitsEnd(input, pos + 1) == |input| || input[DigitsEnd(input, pos + 1)] != '.'
    ensures var r := ScanIntended(input, pos, line, col);
      r.value == input[pos..r.pos] && r.col == col + |r.value|
  {
    var lit := NumericRun(input, pos + 1, input[pos], col, "", 0);
    DigitLiteralStep(input, pos, line, col, lit);
    FreshLiteral(input, pos + 1, col, 0, lit);
  }

  /** A run of digits, a '.', and more digits, read as one slice. */
  lemma SliceAtDot(s: string, i: nat, e: nat, f: nat)
    requires i < e < f <= |s| && s[e] == '.'
    ensures s[i..f] == [s[i]] + s[i + 1..e] + "." + s[e + 1..f]
  {
    assert s[i..f] == s[i..i + 1] + s[i + 1..e] + s[e..e + 1] + s[e + 1..f];
  }

  /** collect_numeric_literal started on an empty value, at the digit just
      before `start`: the value is the sign followed by the text consumed
      from that digit on. */
  lemma FreshLiteral(input: string, start: nat, col: int, prefix: int, lit: Literal)
    requires 0 < start <= |input| && IsDigit(input[start - 1])
    requires lit == NumericRun(input, start, input[start - 1], col, "", prefix)
    ensures lit.value == PrefixText(prefix) + input[start - 1..lit.pos]
    ensures lit.col == col + |lit.value| - |PrefixText(prefix)|
  {
    var e := DigitsEnd(input, start);
    if e == |input| || input[e] != '.' {
      FreshWhole(input, start, col, prefix, e);
    } else {
      FreshFraction(input, start, col, prefix, e, DigitsEnd(input, e + 1));
    }
  }

  /** FreshLiteral for a literal without a fraction. */
  lemma FreshWhole(input: string, start: nat, col: int, prefix: int, e: nat)
    requires 0 < start <= |input| && IsDigit(input[start - 1]) && e == DigitsEnd(input, start)
    requires e == |input| || input[e] != '.'
    ensures NumericRun(input, start, input[start - 1], col, "", prefix) ==
      Literal(IntLiteral, PrefixText(prefix) + input[start - 1..e], e, col + 1 + (e - start))
  {
    NumericRunWhole(input, start, input[start - 1], col, "", prefix, e);
    SliceCons(input, start - 1, e);
    Regroup(PrefixText(prefix), [input[start - 1]], input[start..e], [], []);
  }

  /** FreshLiteral for a literal with a fraction. */
  lemma FreshFraction(input: string, start: nat, col: int, prefix: int, e: nat, f: nat)
    requires 0 < start <= |input| && IsDigit(input[start - 1]) && e == DigitsEnd(input, start)
    requires e < |input| && input[e] == '.' && f == DigitsEnd(input, e + 1)
    ensures NumericRun(input, start, input[start - 1], col, "", prefix) ==
      Literal(RealLiteral, PrefixText(prefix) + input[start - 1..f], f, col + 1 + (f - start))
  {
    NumericRunFraction(input, start, input[start - 1], col, "", prefix, e, f);
    SliceAtDot(input, start - 1, e, f);
    Regroup(PrefixText(prefix), [input[start - 1]], input[start..e], ".", input[e + 1..f]);
  }

  /** Regrouping a fresh value built piece by piece. */
  lemma Regroup(a: string, b: string, c: string, d: string, e: string)
    ensures [] + a + b + c + d + e == a + (b + c + d + e)
  {
    assert [] + a == a;
  }

  lemma DigitLiteralStep(input: string, pos: nat, line: int, col: int, lit: Literal)
    requires pos < |input| && IsDigit(input[pos])
    requires lit == NumericRun(input, pos + 1, input[pos], col, "", 0)
    ensures ScanIntended(input, pos, line, col) ==
      Scanned(Produced(Token(lit.id, line, col)), lit.pos, line, lit.col, lit.value, [])
  {
    assert ScanIntended(input, pos, line, col) == TokenIntended(input, pos, line, col);
  }

  /** As intended, "+5" is the literal "+5" and "==" a single token. */
  lemma ExamplesIntended()
    ensures ScanIntended("+5", 0, 1, 1) == Scanned(Produced(Token(IntLiteral, 1, 1)), 2, 1, 3, "+5", [])
    ensures ScanIntended("==", 0, 1, 1) == Scanned(Produced(Token(EqualEqual, 1, 1)), 2, 1, 3, "==", [])
  {
    var s := "+5";
    assert DigitsEnd(s, 2) == 2;
  }
}
