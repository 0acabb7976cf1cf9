# nuPython core in Dafny

This project models the core of a small interpreter for nuPython, a subset
of Python.

- **AST** (`ast.hpp`): closed tagged variants for statements and
  expressions. A statement list linked through `next` is a finite sequence.
- **RAM** (`ram.hpp`): the typed memory of named cells. It is a class `Memory`
  over an array of cells with `num_values` and `memory_size`. Its meaning is a
  sequence of cells, with lookup and write by identifier and by address.
- **Executor** (`main.c`, with `main.cpp` as a second dialect): the
  handlers for `+`, assignment, `input()` and `int()`, `print`, `while var
  != literal` and the statement walk of `execute`.
- **Scanner** (`scanner.cpp`): the keyword table, the helpers that collect
  identifiers, numeric literals and string literals, `scanner_init` and
  `Scanner::nextToken` with its line and column bookkeeping.

Layout:

| file | module | contents |
|---|---|---|
| `ast.dfy` | `Ast` | datatypes for `ast.hpp`, the enum numberings, block sizes |
| `numeric.dfy` | `Numeric` | `atoi`, `std::stoi`, `strtod`, decimal printing, `all_zeros` |
| `ram.dfy` | `Ram` | cells, the pure store functions, class `Memory` |
| `semantics.dfy` | `Semantics` | every handler as a function of a `Dialect` (`C` = main.c, `Cpp` = main.cpp) and a `State` (cells, input lines, output events) |
| `executor.dfy` | `Executor` | the handlers as methods that update a `Memory` in place, each proved equal to its `Semantics` function |
| `invariants.dfy` | `Invariants` | what every handler does to the state: it writes at most its target, writes nothing unless it succeeds, only appends output, only consumes input |
| `scanner.dfy` | `Scanner` | the lexer as written, as methods over a cursor proved equal to functions, and the lexer as evidently intended |
| `properties.dfy` | `Properties` | the handlers against Python's `+`, `int()` of printed text, the statement walk, the effect of fuel |

Every handler ends in one of four ways:

- `Success`: the handler returns true.
- `Failure`: it prints a runtime error and returns false.
- `Abort(fault)`: the model stops following the program. For `panic()`, a
  failed `assert()` or an uncaught C++ exception, the process stops there.
  For behaviour that C and C++ leave undefined, such as signed overflow,
  `atoi` out of range, or reading a union member the cell does not hold, the
  program may well carry on; `Abort(UndefinedBehaviour(…))` marks the point
  after which the source guarantees nothing.
- `OutOfFuel`: the model's bound on loop iterations ran out.

The C and C++ dialects differ in these places:

- `int()` uses `all_zeros` in C and `std::stoi` in C++.
- C++ has one merged mixed int/real branch in `binary_plus_two_var`.
- Error text goes to stdout in C and to stderr in C++, except in C++'s
  `print`.
- `pass` differs between the two `execute` functions.
- Reading past the end of input differs.

The executor follows each dialect's branches as written; where a line of
main.cpp does not compile, it takes that line's evident meaning (see
"## Left out"). Where one dialect is wrong, the other dialect's behaviour is
the corrected one, and lemmas in `Properties` state both.

## Model

| member | source | states |
|---|---|---|
| Ast.OpCode | ast.hpp:52-67 | every binary operator is numbered below 14 |
| Ast.OpOfCode | ast.hpp:52-67 | every number below 14 decodes to the operator carrying that number, so the operator enum has exactly 14 members |
| Ast.UnaryCode | ast.hpp:69-79 | every unary expression kind is numbered below 9 |
| Ast.UnaryOfCode | ast.hpp:69-79 | every number below 9 decodes to the unary kind carrying it: 9 members |
| Ast.ExprCode | ast.hpp:100-104 | every expression kind is numbered below 3 |
| Ast.ExprOfCode | ast.hpp:100-104 | every number below 3 decodes to the expression kind carrying it: 3 members |
| Ast.StmtCode | ast.hpp:34-41 | every statement kind is numbered below 6 |
| Ast.StmtOfCode | ast.hpp:34-41 | every number below 6 decodes to the statement kind carrying it: 6 members |
| Ast.CodesAreInjective | ast.hpp:34-104 | no two members of any of the four enums share a number |
| Ast.StmtSize | ast.hpp:43-50 | every statement, with the loop bodies it owns, has a positive size |
| Ast.StmtSmallerThanBlock | ast.hpp:43-50 | each statement of a block is strictly smaller than the block, so walking `next` and entering loop bodies terminates |
| Numeric.AllZeros | main.c:36-43 | true exactly when every character is '0'; true on the empty string |
| Numeric.Stoi | main.cpp:201 | converts exactly when there is a digit and the value fits an `int`, and then agrees with atoi; no digit is invalid_argument; a digit with a value outside `int` is out_of_range |
| Numeric.DigitsEnd | main.c:287 | the end of the maximal run of digits from a position: all digits before it, none at it |
| Numeric.IntTextRoundTrip | main.c:287 | atoi of the decimal text of any integer gives it back, and stoi does too when it fits 32 bits |
| Ram.IndexOf | ram.hpp:47 | -1 exactly when no cell has the identifier, otherwise the first cell that has it |
| Ram.Find | ram.hpp:49 | no cell exactly when no cell has the identifier, otherwise a cell of the table with that identifier |
| Ram.Write | ram.hpp:52-58 | afterwards the identifier holds the value and every other identifier reads as before; the table grows by one exactly when the name was new; unique identifiers stay unique; no identifier changes |
| Ram.WriteAt | ram.hpp:53-59 | only the value at the address changes; every identifier stays |
| Ram.AddressAgreesWithIdentifier | ram.hpp:47-59 | the address of an identifier reaches the same cell as the identifier, and writing at that address is writing by identifier |
| Ram.AddressOfOwnName | ram.hpp:47 | with unique identifiers, the address of a cell's own name is its index |
| Ram.Memory.constructor | ram.hpp:39 | a valid store with no cells in use |
| Ram.Memory.GetAddr | ram.hpp:47 | the index of the first cell in use with the identifier, or -1 |
| Ram.Memory.GetCellById | ram.hpp:49 | the cell with the identifier; none exactly when no cell in use has it |
| Ram.Memory.GetCellByAddr | ram.hpp:50 | the cell at an address in use, none for any other address |
| Ram.Memory.Grow | ram.hpp:35-37 | the cells in use are unchanged and the capacity doubles, keeping num_values within memory_size |
| Ram.Memory.WriteById | ram.hpp:52-58 | the cells in use become `Write` of the old cells: the one identifier is set and nothing else changes |
| Ram.Memory.WriteIntById | ram.hpp:52 | the identifier holds an int cell with the value; the rest as `WriteById` |
| Ram.Memory.WriteRealById | ram.hpp:54 | the identifier holds a real cell with the value; the rest as `WriteById` |
| Ram.Memory.WriteStrById | ram.hpp:56 | the identifier holds a str cell with the text; the rest as `WriteById` |
| Ram.Memory.WritePtrById | ram.hpp:58 | the identifier holds a ptr cell with the address; the rest as `WriteById` |
| Ram.Memory.WriteByAddr | ram.hpp:53-59 | an address in use gets the value and keeps its identifier; any other address changes nothing |
| Ram.Memory.WriteIntByAddr | ram.hpp:53 | as `WriteByAddr` with an int value |
| Ram.Memory.WriteRealByAddr | ram.hpp:55 | as `WriteByAddr` with a real value |
| Ram.Memory.WriteStrByAddr | ram.hpp:57 | as `WriteByAddr` with a str value |
| Ram.Memory.WritePtrByAddr | ram.hpp:59 | as `WriteByAddr` with a ptr value |
| Semantics.Report | main.c:54-58 | a runtime error appends one message to the error channel, returns false and writes no cell |
| Semantics.StoreInt | main.c:70-74 | an int result outside 32 bits is undefined behaviour; otherwise the target holds it |
| Semantics.OneVar | main.c:47-108 | `target = x + literal` fails exactly when `x` is undefined or a number meets a string; on success the target is defined |
| Semantics.AddLiteral | main.c:60-63 | with `x` defined, fails exactly for a number literal with a str variable or a str literal with a number variable |
| Semantics.SumWithLiteral | main.c:64-106 | the arithmetic and concatenation branches never report a user error; on success the target is defined |
| Semantics.IntPlusIntLiteral | main.c:64-75 | int variable plus int literal: a literal out of atoi's range is undefined, otherwise the int sum is stored (overflow undefined) |
| Semantics.TwoVar | main.c:112-178 | `target = a + b` fails exactly when either name is undefined or a number meets a string; on success the target is defined |
| Semantics.SumOfCells | main.c:136-176 | the branches of two compatible cells never report a user error; on success the target is defined |
| Semantics.BinaryPlus | main.c:183-205 | a left operand that is not a variable panics and changes nothing |
| Semantics.BeforeCr | main.c:254 | the line up to its first carriage return, which is cut off |
| Semantics.ReadLine | main.c:252-254 | in C, reading with no line left is the only way to get nothing; otherwise exactly one line is consumed |
| Semantics.IntOfText | main.c:287-305 | C: success exactly when atoi's value fits in 32 bits and is not 0 unless the text is all zeros, and it stores that value; failure ("invalid numeric string") exactly when atoi gives 0 and the text is not all zeros. C++: success exactly when stoi converts |
| Semantics.FunctionCallAssign | main.c:217-319 | `input()` stores the line read as a str; `int(v)` on success stores atoi of `v`'s text and needs `v` to be a defined str; `int(v)` on an undefined `v` reports "name is not defined"; no other function succeeds; only `input()` reads or writes the terminal on success |
| Semantics.Assign | main.c:333-418 | a literal stores a cell of the matching type and value; a variable copies the source's value; an undefined source reports an error |
| Semantics.CallStmt | main.c:432-495 | `print` never writes a cell and fails exactly for an undefined variable, printing "name is not defined" on stdout in both dialects; on success it appends one stdout line: a literal's own text, `%d` of an int, a str's text, or a real in the dialect's format |
| Semantics.EntryGuard | main.c:509-548 | the loop runs only for an int variable against an int or real literal, a real variable, or a str variable against a str literal |
| Semantics.ExecBlock | main.c:562-626 | the empty program succeeds and changes nothing |
| Semantics.ExecStmt | main.c:575-604 | a statement other than a loop that does not succeed writes no cell |
| Semantics.ExecWhile | main.c:497-555 | an undefined variable or incompatible tags report an error before the body runs; success means the variable's value no longer differs from the literal |
| Semantics.ExecLoop | main.c:517-548 | the loop ends successfully only when the value equals the literal, and does nothing more if it already does; while the value differs, a body that does not succeed ends the loop with the body's own status and state |
| Executor.BinaryPlusOneVar | main.c:47-108 | the new cells and output are those `Semantics.OneVar` gives for the old cells |
| Executor.AddLiteral | main.c:64-106 | the new cells and output are those of `Semantics.SumWithLiteral` |
| Executor.BinaryPlusTwoVar | main.c:112-178 | the new cells and output are those of `Semantics.TwoVar` |
| Executor.AddCells | main.c:136-176 | the new cells and output are those of `Semantics.SumOfCells` |
| Executor.BinaryPlus | main.c:183-205 | the new cells and output are those of `Semantics.BinaryPlus` |
| Executor.ConvertToInt | main.c:287-305 | the new cells and output are those of `Semantics.IntOfText` |
| Executor.ExecuteAssignmentFunctionCall | main.c:217-319 | the new cells and output are those of `Semantics.FunctionCallAssign` |
| Executor.ExecuteAssignment | main.c:333-418 | the new cells and output are those of `Semantics.Assign` |
| Executor.ExecuteFunctionCall | main.c:432-495 | the output is that of `Semantics.CallStmt`, and memory is only read |
| Executor.ExecuteWhileLoop | main.c:497-555 | the new cells and output are those of `Semantics.ExecWhile` |
| Executor.RunLoop | main.c:517-548 | the body re-runs through a loop; the result is `Semantics.ExecLoop` |
| Executor.Execute | main.c:562-626 | the cursor loop over the statements gives the result of `Semantics.ExecBlock` |
| Invariants.SumWithLiteralFrame | main.c:64-106 | the literal branches write at most the target, nothing unless they succeed, and keep the state evolving |
| Invariants.SumOfCellsFrame | main.c:136-176 | the two-cell branches write at most the target and nothing unless they succeed |
| Invariants.OneVarFrame | main.c:47-108 | `target = x + literal` writes at most the target and nothing on failure; output is only appended |
| Invariants.TwoVarFrame | main.c:112-178 | `target = a + b` writes at most the target and nothing on failure |
| Invariants.BinaryPlusFrame | main.c:183-205 | `+` writes at most the target and nothing unless it succeeds |
| Invariants.IntOfTextFrame | main.c:287-305 | `int()` writes at most the target and nothing unless it succeeds |
| Invariants.InputFrame | main.c:237-257 | `input()` writes at most the target, only consumes input and only appends output |
| Invariants.FunctionCallAssignFrame | main.c:217-319 | an assignment from a call writes at most its target and nothing unless it succeeds |
| Invariants.AssignFrame | main.c:333-418 | an assignment writes at most its target and nothing unless it succeeds |
| Invariants.CallStmtEvolves | main.c:432-495 | `print` keeps every cell and only appends output |
| Invariants.ExecBlockEvolves | main.c:562-626 | a whole program, whatever its outcome, only appends output, only consumes input, never undefines a name and stores only basic values |
| Invariants.ExecStmtEvolves | main.c:575-604 | the same for one statement |
| Invariants.ExecWhileEvolves | main.c:497-555 | the same for a while loop |
| Invariants.ExecLoopEvolves | main.c:517-548 | the same for the loop's repetitions |
| Scanner.IdEnd | scanner.cpp:20-26 | the end of the run of letters, digits and '_': every character before it is one, the one at it is not |
| Scanner.IdOrKeyword | scanner.cpp:33-47 | an identifier exactly when the text is not one of the keywords; a keyword's number picks that keyword |
| Scanner.KeywordToken | scanner.cpp:33-47 | the i-th keyword's text gives keyword i (the keywords are distinct and matched case-sensitively) |
| Scanner.IdentifierRun | scanner.cpp:15-30 | the value is the first character followed by the longest run of identifier characters; the character after it is not consumed; the column advances by the value's length |
| Scanner.CollectIdentifier | scanner.cpp:15-30 | the character loop gives `IdentifierRun` |
| Scanner.NumericRun | scanner.cpp:51-96 | an int literal exactly when no '.' follows the digits; its value is the previous value, the sign prefix, the first digit and the digit run; otherwise a real `digits "." digits` whose fraction may be empty; the column advances by one per character collected |
| Scanner.CollectDigits | scanner.cpp:63-69 | the digit loop stops at the first non-digit, appends the run and advances the column by its length |
| Scanner.CollectNumericLiteral | scanner.cpp:51-96 | the helper's loops give `NumericRun` |
| Scanner.StringRun | scanner.cpp:99-124 | the value is the text strictly inside the delimiters; it stops at the same delimiter, a newline or the end, consumes only a matching delimiter, and advances the column by length+2 if terminated, length+1 and a message if not |
| Scanner.CollectStringLiteral | scanner.cpp:99-124 | the helper's loop gives `StringRun` |
| Scanner.ScannerInit | scanner.cpp:126-131 | line 1, column 1, empty value |
| Scanner.Scan | scanner.cpp:144-393 | throws exactly when the value is empty, and otherwise produces a token |
| Scanner.ScanFrom | scanner.cpp:152-177 | after skipping blanks and comments a token is produced; every token but the end consumes input; line and column never go back |
| Scanner.TokenAt | scanner.cpp:178-389 | the token at a character keeps the line, consumes at least that character, and is the end-of-stream token exactly for '$' |
| Scanner.NextToken | scanner.cpp:144-393 | the method over the cursor gives `Scan` |
| Scanner.ScanToken | scanner.cpp:178-389 | the per-character dispatch gives `TokenAt` |
| Scanner.ScanSign | scanner.cpp:242-272 | the '+' and '-' branches, with the cases nested in '-', give `TokenAt` |
| Scanner.EndOfStream | scanner.cpp:155-170 | the end of the input and '$' give EOS with value "$"; '$' advances the column and the end does not |
| Scanner.BlanksSkipped | scanner.cpp:171-177 | blanks each advance the column by one; a newline increments the line and resets the column to 1 |
| Scanner.CommentSkipped | scanner.cpp:358-366 | a comment is skipped to the end of its line, then scanning goes on with the next line |
| Scanner.IdentifierToken | scanner.cpp:196-205 | an identifier's token is the keyword or identifier of its maximal run, whose length the column advances by |
| Scanner.GreaterToken | scanner.cpp:341-357 | '>' followed by '=' gives GTE; otherwise GT with the next character not consumed |
| Scanner.UnknownCharacter | scanner.cpp:381-389 | any other character gives UNKNOWN with that character as value and column+1 |
| Scanner.StringToken | scanner.cpp:374-380 | a quote starts a string literal; nothing is printed exactly when it is terminated by the same quote |
| Scanner.NoEqualityTokens | scanner.cpp:273-329 | as written, no input ever yields the tokens `nuPy_EQUAL`, `nuPy_NOTEQUAL` or `nuPy_LE` (`Equal`, `NotEqual`, `Le`) |
| Scanner.EqualsAsWritten | scanner.cpp:259-291 | as written, '=' at the top level is UNKNOWN, and '-' followed by '=' gives `nuPy_EQUALEQUAL` (`EqualEqual`) one column on |
| Scanner.SignedLiteralAsWritten | scanner.cpp:242-258 | as written, "+5" gives an int literal whose value is "++55", with column 4 |
| Scanner.DigitLiteralAsWritten | scanner.cpp:367-373 | as written, a literal starting with a digit keeps the previous value in front of its digits |
| Scanner.FirstCallThrows | scanner.cpp:147-148 | as written, the first call after scanner_init throws, since the value is empty |
| Scanner.TokenIntended | scanner.cpp:178-389 | the intended token keeps the line, consumes at least one character, and advances the column by the number of characters consumed |
| Scanner.ScanIntended | scanner.cpp:144-393 | the intended scanner always produces a token; every token but the end consumes input |
| Scanner.ComparisonIntended | scanner.cpp:273-329 | as intended, '=', '!' and '<' take a following '=' into `nuPy_EQUALEQUAL`, `nuPy_NOTEQUAL` and `nuPy_LE`, and otherwise give `nuPy_EQUAL`, `nuPy_UNKNOWN` and `nuPy_LT` |
| Scanner.SignedLiteralIntended | scanner.cpp:242-272 | as intended, a signed literal is an int exactly when no '.' follows its digits; its value is exactly the characters consumed; the column advances by their number |
| Scanner.DigitLiteralIntended | scanner.cpp:367-373 | as intended, a literal starting with a digit has exactly the characters consumed as its value, and is an int exactly when no '.' follows its digits |
| Scanner.ExamplesIntended | scanner.cpp:242-291 | as intended, "+5" gives the int literal "+5" and "==" gives `nuPy_EQUALEQUAL` |
| Properties.StrtodOfIntegerText | main.c:85 | strtod and atoi agree on the text of an int literal |
| Properties.OneVarAgreesWithPython | main.c:47-108 | `target = x + literal` stores Python's `x + literal`: the int sum (with overflow), the real sum, the concatenation with the variable's text first, or a type error |
| Properties.AddLiteralAgreesWithPython | main.c:60-106 | the same once `x` is known to be defined |
| Properties.IntPlusReal | main.c:76-82 | an int variable plus a real literal stores the real sum |
| Properties.RealPlusNumber | main.c:83-89 | a real variable plus an int or real literal stores Python's real sum |
| Properties.RealPlusLiteralText | main.c:83-89 | a real variable adds strtod of the literal's text, whatever the literal's kind |
| Properties.TwoVarAgreesWithPython | main.c:112-178 | `target = a + b` stores Python's `a + b` (except C++ with a real on the left and an int on the right) |
| Properties.SumOfCellsAgreesWithPython | main.c:136-176 | each branch for two compatible cells computes Python's `+` |
| Properties.RealSumOfCells | main.c:142-158 | the three real-valued branches each store the real sum, whichever order they add in |
| Properties.MixedSumAsWritten | main.cpp:104-108 | C++'s merged branch with a real on the left reads members the cells do not hold; C's separate branch stores the sum |
| Properties.IntOfPrintedText | main.c:287-305 | `int()` of the decimal text of an int stores that int, in both dialects |
| Properties.PrintAfterIntAssignment | main.c:451-479 | after `x = <int literal>`, `print(x)` appends exactly one stdout line, the `%d` text of the stored value, which atoi reads back as that value |
| Properties.PrintFive | main.c:451-479 | `x = 5` then `print(x)` prints "5" |
| Properties.IntOfEmptyText | main.c:287-305 | `int("")` stores 0 in C (all_zeros of "" holds), and throws invalid_argument in C++ |
| Properties.BlockConcat | main.c:569-620 | running two statement lists one after the other is running the first and, only if it succeeds, the second |
| Properties.PassStopsAsWritten | main.c:595-600 | in C, `pass` leaves `success` false, so execute returns false there and nothing after it runs |
| Properties.PassIsNoOp | main.cpp:430-432 | in C++, `pass` changes nothing and execution goes on with the next statement |
| Properties.BlockFuel | main.c:562-626 | a program that finishes within some fuel gives the same result with any more fuel |
| Properties.StmtFuel | main.c:575-604 | the same for one statement |
| Properties.WhileFuel | main.c:497-555 | the same for a while loop |
| Properties.LoopFuel | main.c:517-548 | the same for the loop's repetitions |

## Left out

- Input and output: `main()` (choosing a file or the keyboard, prompts, draining stdin), parsing and the token queue. `input()` reads the next of a given list of lines, and output is a list of events.
- Semantics.ReadLine: the 256-byte `fgets` buffer is not modelled; a line of any length is read whole.
- Numeric.Strtod: reals are exact Dafny `real`s. IEEE rounding, exponents, hexadecimal, infinities and NaN are not modelled, and neither are the digits `%lf` and `cout` print (an output event carries the value and the format).
- Semantics.ExecLoop: a loop that need not terminate is bounded by fuel. Running out is `OutOfFuel`, a status the source does not have; the `*Fuel` lemmas show that more fuel never changes a finished result.
- Executor.RunLoop: the loop's cell pointer, captured once before the loop, is modelled as reading the variable again by name each round. The branch chosen at entry is kept, and a cell whose type has since changed is an undefined read.
- Ram.Memory.Grow: the bodies of the RAM functions are not part of this model. Doubling the capacity from 4 cells is a choice of the model; only the contracts the executor relies on are stated.
- Ram.Memory.WriteByAddr: an address outside the cells in use changes nothing; the source does not say what it does.
- Memory management (`malloc`/`free`, `ram_free`, AST destruction) and `ram_print` are not modelled.
- Scanner.Scan: the `!input` test of the stream at scanner.cpp:145-146 is not modelled (the input is always a valid text).
- Scanner.ScanSign: after a '-' followed by anything but a digit, '=', '!' or '<', or by the end of the input, scanner.cpp:337-340 puts back the character that `peek()` only looked at. The model leaves the cursor just after the '-'. On a real file stream that putback can place the character in front of itself, so it is read twice ("x - 1" sees the `1` one column later, "-x" scans as "xx"), or it can fail, and then the next call throws at scanner.cpp:145-146. The model captures neither. (The '!' and '<' branches after '-' put back the character `get()` has just returned, so there the model's cursor is exact.)
- Scanner.TokenAt: scanner.cpp:332-336 cannot be reached, since `c` is not '=' there, and is not modelled.
- Scanner.TokenAt: when '>' is the last character of the input, the `get()` at scanner.cpp:349 fails at the end of the stream and the putback that follows leaves the stream failed, so the next call throws at scanner.cpp:145-146. The model goes on and returns the end-of-stream token. ('=', '!' and '<' at the top level give UNKNOWN without reading further, and inside the '-' branch their `get()` reads the character `peek()` has just seen.)
- main.cpp does not compile as written. Line 114 adds two `char*`, lines 129 and 134 pass a `const std::string&` where a `char*` is expected, and line 317 passes a `std::string` as a `const char*`. Against ast.hpp:83, where a unary expression holds only a `std::variant<std::string>`, neither executor's `types.variable_name` or `types.literal_value` exists. The model gives these lines their evident meaning: line 114 concatenates cell1's text then cell2's, the names and texts are passed as strings, and a unary expression carries one text (its literal or its name).
- Scanner.IdOrKeyword: keyword tokens are numbered by their position in the keyword table, not by the integer values of `token.hpp`, which is not part of this model.
- Scanner.CollectIdentifier: scanner.cpp calls the helpers by names and argument lists that do not match their definitions (`collectIdentifier`, an extra argument to the numeric helper). The model calls the helpers as they are defined.
- Scanner.Scan: line and column numbers are unbounded integers; `int` overflow of either is not modelled.
- `if`/`elif`/`else`, pointer dereference assignment and unsupported operators or functions are modelled only as the `panic()` they lead to.

## Findings

| source | as written | input that shows it | evidently intended | confidence | as-written member | corrected member |
|---|---|---|---|---|---|---|
| scanner.cpp:147-148 | nextToken throws when `value` is empty, and scanner_init sets it empty | the first call after scanner_init, on any input | no exception for an empty value | not executed | Scanner.FirstCallThrows | Scanner.ScanIntended |
| scanner.cpp:273-291 | the '=', '!' and '<' cases sit inside the '-' branch, so a lone '=' is UNKNOWN and "==" is two UNKNOWN tokens | "x = 1" gives UNKNOWN for '='; "-=" gives `nuPy_EQUALEQUAL` | '=', "==", "!=", "<" and "<=" scanned as their own tokens | not executed | Scanner.EqualsAsWritten | Scanner.ComparisonIntended |
| scanner.cpp:250-253 | after a sign, the digit is only peeked at, yet it is passed as the first digit and then read again, and the sign is both kept in `value` and added as a prefix | "+5" gives value "++55" at column 4 | value "+5" at column 3 | not executed | Scanner.SignedLiteralAsWritten | Scanner.SignedLiteralIntended |
| scanner.cpp:367-372 | a literal starting with a digit is appended to the previous token's value, which is not cleared | "5" with previous value "x" gives "x5" | value "5" | not executed | Scanner.DigitLiteralAsWritten | Scanner.DigitLiteralIntended |
| main.c:571 | `success` starts false and the `pass` branch does not set it, so `pass` stops the program with false | the program `pass` followed by any statement | `pass` does nothing and execution goes on, as main.cpp:410 does | not executed | Properties.PassStopsAsWritten | Properties.PassIsNoOp |
| main.cpp:104-108 | one branch for both mixed int/real cases adds `cell1->types.i + cell2->types.d` | `x = 1.5`, `y = 2`, `z = x + y` reads the int member of a real cell | the real sum, as main.c:148-153 computes | not executed | Properties.MixedSumAsWritten | Properties.TwoVarAgreesWithPython |

The corrected lemmas of findings 2 and 3 cover both signs and all three
comparison characters. Scanner.NoEqualityTokens states the same finding for every
input. Scanner.ExamplesIntended checks the corrected scanner on the inputs of
findings 2 and 3.
