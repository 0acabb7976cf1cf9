/** The meaning of executing a nuPython program: what each handler of the
    executor (main.c, and its C++ rewrite main.cpp) does to the memory, the
    input and the output. The two executors differ in a few branches, so every
    function takes the `Dialect` it describes: `C` for main.c, the reference,
    and `Cpp` for main.cpp.

    Each handler ends in one of three ways the source distinguishes: it
    returns true (`Success`), it prints a user-facing error and returns false
    (`Failure`), or the model stops following the program (`Abort`). After a
    call to panic(), a failed assert() or an uncaught C++ exception the
    process stops there. After an operation whose result the language leaves
    undefined (signed overflow, atoi out of range, a read of a union member
    the cell does not hold) the program may well carry on;
    `Abort(UndefinedBehaviour(...))` marks the point after which the source
    guarantees nothing. A while loop need not terminate; the model bounds it
    with fuel and reports `OutOfFuel` when that runs out. */
module Semantics {
  import opened Ast
  import opened Ram
  import opened Numeric

  datatype Dialect = C | Cpp

  datatype Channel = Stdout | Stderr

  /** How a double is rendered: printf's "%lf" (main.c) or the default
      formatting of std::cout (main.cpp). The digits themselves are not
      modelled. */
  datatype RealFormat = FixedSixDecimals | SixSignificantDigits

  /** One write to an output stream. A real is followed by a newline. */
  datatype Event =
    | Text(channel: Channel, text: string)
    | RealLine(channel: Channel, value: real, format: RealFormat)

  /** The calls to panic() in the executor, one per message. */
  datatype PanicSite =
    | UnsupportedAssignmentOperand   // "assignment unary_expr_type not supported"
    | UnsupportedBinaryExpression    // "unsupported binary expression"
    | UnsupportedInputParameter      // "unsupported input() parameter unary expr type"
    | UnsupportedIntParameter        // "unsupported int(unary_expr_type)"
    | IntRequiresString              // "int() requires a string value"
    | UnsupportedAssignmentFunction  // "function not supported within assignment"
    | UnsupportedFunction            // "unsupported function"
    | UnsupportedVariableType        // "unsupported variable type"
    | UnsupportedPrintParameter      // "unsupported print(unary_expr_type)"
    | DerefPtrAssignmentUnsupported  // "deref ptr assignment not yet supported"
    | IfThenElseUnsupported          // "if-then-else not yet supported"

  /** The operations whose result C and C++ leave undefined. */
  datatype Undefined =
    | SignedOverflow       // an int sum outside the range of int
    | AtoiOutOfRange       // atoi of a numeral outside the range of int
    | NonStringRead        // a string read from a cell that does not hold one
    | MixedMemberRead      // main.cpp's int member of a real cell plus double member of an int cell
    | ReadPastEndOfInput   // the line buffer after fgets found no more input
    | ConditionNotBinary   // a loop condition read as a binary expression when it is not one
    | WrongMemberRead      // a loop guard reading a member the cell no longer holds

  datatype CppException = InvalidArgumentError | OutOfRangeError

  datatype Fault =
    | Panic(site: PanicSite)
    | AssertionFailed              // assert(parameter->expr_type == AST_UNARY_EXPR)
    | UndefinedBehaviour(cause: Undefined)
    | UncaughtException(exception: CppException)

  datatype Status = Success | Failure | Abort(fault: Fault) | OutOfFuel

  /** The lines still to be read from standard input (without their line
      terminators), and everything written so far. */
  datatype Io = Io(input: seq<string>, output: seq<Event>)

  datatype State = State(cells: seq<Cell>, io: Io)

  datatype Step = Step(status: Status, state: State)

  // ---------------------------------------------------------------------
  // Messages and error reporting

  function NotDefined(name: string): string
  {
    "ERROR: name '" + name + "' is not defined\n"
  }

  const UnsupportedPlus: string := "ERROR: unsupported operand type(s) for +\n"
  const UnsupportedNotEqual: string := "ERROR: unsupported operand type(s) for !=\n"
  const InvalidNumeric: string := "ERROR: invalid numeric string for int()\n"

  /** main.c prints every runtime error on stdout; main.cpp writes them to
      std::cerr, except print()'s undefined-name error (main.cpp:320). */
  function ErrorChannel(d: Dialect): Channel
  {
    if d == C then Stdout else Stderr
  }

  function Emit(st: State, e: Event): (r: State)
    ensures r.cells == st.cells && r.io.input == st.io.input
    ensures r.io.output == st.io.output + [e]
  {
    st.(io := st.io.(output := st.io.output + [e]))
  }

  /** A user-facing runtime error: the message, and the handler returns false. */
  function Report(d: Dialect, st: State, message: string): (r: Step)
    ensures r.status == Failure && r.state.cells == st.cells && r.state.io.input == st.io.input
    ensures r.state.io.output == st.io.output + [Text(ErrorChannel(d), message)]
  {
    Step(Failure, Emit(st, Text(ErrorChannel(d), message)))
  }

  /** The point where the model stops following the program: the process
      stops (panic, assert, uncaught exception), or the source guarantees
      nothing from here on (undefined behaviour). The state is left as it
      was. */
  function Halt(st: State, fault: Fault): (r: Step)
    ensures r.status == Abort(fault) && r.state == st
  {
    Step(Abort(fault), st)
  }

  /** A successful write of `v` to `target`. */
  function Store(st: State, target: string, v: Value): (r: Step)
    ensures r.status == Success && r.state.io == st.io
    ensures Lookup(r.state.cells, target) == Some(v)
  {
    Step(Success, st.(cells := Write(st.cells, target, v)))
  }

  /** Storing the result of int arithmetic: a result that does not fit an
      `int` is signed overflow, which C and C++ leave undefined. */
  function StoreInt(st: State, target: string, n: int): (r: Step)
    ensures r.status == (if IsInt32(n) then Success else Abort(UndefinedBehaviour(SignedOverflow)))
    ensures r.status == Success ==> Lookup(r.state.cells, target) == Some(IntVal(n))
  {
    if IsInt32(n) then Store(st, target, IntVal(n))
    else Halt(st, UndefinedBehaviour(SignedOverflow))
  }

  // ---------------------------------------------------------------------
  // Properties shared by the handlers

  /** The values this executor ever stores: an int that fits, a real or a
      string. */
  predicate IsBasic(v: Value)
  {
    (v.IntVal? && IsInt32(v.i)) || v.RealVal? || v.StrVal?
  }

  ghost predicate AllBasic(cells: seq<Cell>)
  {
    forall y :: Lookup(cells, y).Some? ==> IsBasic(Lookup(cells, y).value)
  }

  predicate IsSuffix<T(==)>(a: seq<T>, b: seq<T>)
  {
    |a| <= |b| && a == b[|b| - |a|..]
  }

  /** What any run of the executor does to its state, whatever happens: the
      output is only appended to, input lines are only consumed, a defined
      name stays defined, and only basic values are stored. */
  ghost predicate Evolves(s1: State, s2: State)
  {
    && s1.io.output <= s2.io.output
    && IsSuffix(s2.io.input, s1.io.input)
    && (forall y :: Lookup(s1.cells, y).Some? ==> Lookup(s2.cells, y).Some?)
    && (AllBasic(s1.cells) ==> AllBasic(s2.cells))
  }

  lemma EvolvesTransitive(s1: State, s2: State, s3: State)
    requires Evolves(s1, s2) && Evolves(s2, s3)
    ensures Evolves(s1, s3)
  {
    var a, b, c := s1.io.input, s2.io.input, s3.io.input;
    assert c == a[|a| - |c|..] by {
      assert b == a[|a| - |b|..];
      assert c == b[|b| - |c|..];
      assert a[|a| - |b|..][|b| - |c|..] == a[|a| - |c|..];
    }
    var o1, o2, o3 := s1.io.output, s2.io.output, s3.io.output;
    assert o1 == o3[..|o1|] by {
      assert o1 == o2[..|o1|];
      assert o2 == o3[..|o2|];
      assert o3[..|o2|][..|o1|] == o3[..|o1|];
    }
  }

  /** A statement that assigns `target` writes no other name, and one that
      does not succeed writes nothing at all. */
  ghost predicate WritesAtMost(st: State, r: Step, target: string)
  {
    && (forall y :: y != target ==> Lookup(r.state.cells, y) == Lookup(st.cells, y))
    && (r.status != Success ==> r.state.cells == st.cells)
  }

  // ---------------------------------------------------------------------
  // The `+` operator

  predicate IsNumeric(t: CellType)
  {
    t == IntType || t == RealType
  }

  /** The operand pairs that `+` rejects as a type error: a number with a
      string, in either order. */
  predicate Mixes(t1: CellType, t2: CellType)
  {
    (IsNumeric(t1) && t2 == StrType) || (t1 == StrType && IsNumeric(t2))
  }

  /** The cell type a literal of this kind denotes, if it is a number or a
      string literal. */
  function LiteralType(k: UnaryKind): Option<CellType>
  {
    if k == IntLiteral then Some(IntType)
    else if k == RealLiteral then Some(RealType)
    else if k == StrLiteral then Some(StrType)
    else None
  }

  /** The value a number or string literal denotes. */
  function LiteralValue(u: UnaryExpr): (v: Option<Value>)
    ensures v.Some? <==> LiteralType(u.kind).Some?
    ensures v.Some? ==> TypeOf(v.value) == LiteralType(u.kind).value
  {
    if u.kind == IntLiteral then Some(IntVal(Atoi(u.text)))
    else if u.kind == RealLiteral then Some(RealVal(Strtod(u.text)))
    else if u.kind == StrLiteral then Some(StrVal(u.text))
    else None
  }

  function AsReal(v: Value): real
    requires v.IntVal? || v.RealVal?
  {
    if v.IntVal? then v.i as real else v.d
  }

  /** Python's `+` on ints, reals and strings, the reference the executor's
      dispatch is measured against: int+int is an int, a real with any
      number is a real, str+str concatenates left to right, and every other
      pair is a type error (None). */
  function PythonPlus(a: Value, b: Value): (r: Option<Value>)
    requires IsBasic(a) && IsBasic(b)
    ensures r.None? <==> Mixes(TypeOf(a), TypeOf(b))
  {
    if a.IntVal? && b.IntVal? then Some(IntVal(a.i + b.i))
    else if (a.IntVal? || a.RealVal?) && (b.IntVal? || b.RealVal?) then Some(RealVal(AsReal(a) + AsReal(b)))
    else if a.StrVal? && b.StrVal? then Some(StrVal(a.s + b.s))
    else None
  }

  /** The step that carries out `target = <result of +>`. */
  function PlusOutcome(d: Dialect, st: State, target: string, r: Option<Value>): Step
  {
    match r
    case None => Report(d, st, UnsupportedPlus)
    case Some(v) => if v.IntVal? then StoreInt(st, target, v.i) else Store(st, target, v)
  }

  /** binary_plus_one_var (main.c:47-108, main.cpp:35-74): `target = x + lit`. */
  function OneVar(d: Dialect, lhs: UnaryExpr, rhs: UnaryExpr, target: string, st: State): (r: Step)
    ensures r.status == Failure <==>
      Lookup(st.cells, lhs.text).None? ||
      (LiteralType(rhs.kind).Some? && Mixes(TypeOf(Lookup(st.cells, lhs.text).value), LiteralType(rhs.kind).value))
    ensures r.status == Success ==> Lookup(r.state.cells, target).Some?
  {
    match Lookup(st.cells, lhs.text)
    case None => Report(d, st, NotDefined(lhs.text))
    case Some(v) => AddLiteral(d, v, rhs, target, st)
  }

  /** The branches of binary_plus_one_var once the variable holds `v`. */
  function AddLiteral(d: Dialect, v: Value, rhs: UnaryExpr, target: string, st: State): (r: Step)
    ensures r.status == Failure <==> LiteralType(rhs.kind).Some? && Mixes(TypeOf(v), LiteralType(rhs.kind).value)
    ensures r.status == Success ==> Lookup(r.state.cells, target).Some?
  {
    if ((rhs.kind == IntLiteral || rhs.kind == RealLiteral) && v.StrVal?)
      || (rhs.kind == StrLiteral && (v.IntVal? || v.RealVal?)) then
      Report(d, st, UnsupportedPlus)
    else
      SumWithLiteral(v, rhs, target, st)
  }

  /** The arithmetic and concatenation branches of binary_plus_one_var
      (main.c:64-106, main.cpp:50-72). */
  function SumWithLiteral(v: Value, rhs: UnaryExpr, target: string, st: State): (r: Step)
    ensures r.status != Failure
    ensures r.status == Success ==> Lookup(r.state.cells, target).Some?
  {
    var lit := rhs.text;
    match v
    case IntVal(i) =>
      if rhs.kind == IntLiteral then
        if IsInt32(Atoi(lit)) then StoreInt(st, target, i + Atoi(lit))
        else Halt(st, UndefinedBehaviour(AtoiOutOfRange))
      else if rhs.kind == RealLiteral then Store(st, target, RealVal(i as real + Strtod(lit)))
      else if rhs.kind == StrLiteral then Halt(st, UndefinedBehaviour(NonStringRead))
      else Halt(st, Panic(UnsupportedAssignmentOperand))
    case RealVal(x) =>
      // only the variable's type is tested here: any literal goes through strtod
      Store(st, target, RealVal(x + Strtod(lit)))
    case StrVal(text) =>
      if rhs.kind == StrLiteral then Store(st, target, StrVal(text + lit))
      else Halt(st, Panic(UnsupportedAssignmentOperand))
    case _ =>
      if rhs.kind == StrLiteral then Halt(st, UndefinedBehaviour(NonStringRead))
      else Halt(st, Panic(UnsupportedAssignmentOperand))
  }

  /** SumWithLiteral on an int variable and an int literal, one step unfolded. */
  lemma IntPlusIntLiteral(i: int, rhs: UnaryExpr, target: string, st: State)
    requires rhs.kind == IntLiteral
    ensures SumWithLiteral(IntVal(i), rhs, target, st) ==
      if IsInt32(Atoi(rhs.text)) then StoreInt(st, target, i + Atoi(rhs.text))
      else Halt(st, UndefinedBehaviour(AtoiOutOfRange))
  {
  }

  /** SumWithLiteral on a real variable, one step unfolded. */
  lemma RealPlusLiteral(x: real, rhs: UnaryExpr, target: string, st: State)
    ensures SumWithLiteral(RealVal(x), rhs, target, st) == Store(st, target, RealVal(x + Strtod(rhs.text)))
  {
  }

  /** binary_plus_two_var (main.c:112-178, main.cpp:78-121): `target = a + b`.
      main.cpp merges the two mixed int/real branches into one that always
      reads the left cell's int and the right cell's double (main.cpp:104-108). */
  function TwoVar(d: Dialect, lhs: UnaryExpr, rhs: UnaryExpr, target: string, st: State): (r: Step)
    ensures r.status == Failure <==>
      Lookup(st.cells, lhs.text).None? || Lookup(st.cells, rhs.text).None? ||
      Mixes(TypeOf(Lookup(st.cells, lhs.text).value), TypeOf(Lookup(st.cells, rhs.text).value))
    ensures r.status == Success ==> Lookup(r.state.cells, target).Some?
  {
    match (Lookup(st.cells, lhs.text), Lookup(st.cells, rhs.text))
    case (None, _) => Report(d, st, NotDefined(lhs.text))
    case (_, None) => Report(d, st, NotDefined(rhs.text))
    case (Some(a), Some(b)) =>
      if Mixes(TypeOf(a), TypeOf(b)) then Report(d, st, UnsupportedPlus)
      else SumOfCells(d, a, b, target, st)
  }

  /** The arithmetic and concatenation branches of binary_plus_two_var
      (main.c:136-176, main.cpp:93-119), for cells holding `a` and `b`. */
  function SumOfCells(d: Dialect, a: Value, b: Value, target: string, st: State): (r: Step)
    ensures r.status != Failure
    ensures r.status == Success ==> Lookup(r.state.cells, target).Some?
  {
    if a.IntVal? && b.IntVal? then
      StoreInt(st, target, a.i + b.i)
    else if d == Cpp && ((b.RealVal? && a.IntVal?) || (a.RealVal? && b.IntVal?)) then
      if a.IntVal? then Store(st, target, RealVal(a.i as real + b.d))
      else Halt(st, UndefinedBehaviour(MixedMemberRead))
    else if b.RealVal? && a.IntVal? then
      Store(st, target, RealVal(a.i as real + b.d))
    else if a.RealVal? && b.IntVal? then
      Store(st, target, RealVal(b.i as real + a.d))
    else if a.RealVal? && b.RealVal? then
      Store(st, target, RealVal(b.d + a.d))
    else if b.StrVal? then
      if a.StrVal? then Store(st, target, StrVal(a.s + b.s))
      else Halt(st, UndefinedBehaviour(NonStringRead))
    else
      Halt(st, Panic(UnsupportedAssignmentOperand))
  }

  /** binary_plus (main.c:183-205, main.cpp:126-143): the left operand must
      be a variable; the right one selects the one- or two-variable form. */
  function BinaryPlus(d: Dialect, lhs: UnaryExpr, rhs: UnaryExpr, target: string, st: State): (r: Step)
    ensures lhs.kind != VariableAccess ==> r.status.Abort? && r.state == st
  {
    if lhs.kind == VariableAccess then
      if rhs.kind != VariableAccess then OneVar(d, lhs, rhs, target, st)
      else TwoVar(d, lhs, rhs, target, st)
    else
      Halt(st, Panic(UnsupportedAssignmentOperand))
  }

  // ---------------------------------------------------------------------
  // input() and int()

  /** The text of a line up to its first carriage return: main.c cuts the
      line at the first '\r' or '\n' (main.c:255), and the lines here carry no
      '\n'. */
  function BeforeCr(line: string): (r: string)
    ensures r <= line && '\r' !in r
    ensures |r| < |line| ==> line[|r|] == '\r'
  {
    if line == [] || line[0] == '\r' then [] else [line[0]] + BeforeCr(line[1..])
  }

  /** Reading one line of standard input for input(). main.c's fgets leaves
      the buffer undefined when nothing is left to read (None); main.cpp's
      getline gives the empty string. Returns the line and the rest. */
  function ReadLine(d: Dialect, input: seq<string>): (r: Option<(string, seq<string>)>)
    ensures r.None? <==> d == C && input == []
    ensures r.Some? && input != [] ==> r.value.1 == input[1..]
  {
    if input == [] then (if d == C then None else Some(([], [])))
    else if d == C then Some((BeforeCr(input[0]), input[1..]))
    else Some((input[0], input[1..]))
  }

  /** int() on the text held by a string cell. main.c (main.c:287-305) takes
      atoi's value and rejects a zero that does not come from an all-zero
      string; main.cpp (main.cpp:201-205) calls std::stoi, whose exceptions
      nothing catches. */
  function IntOfText(d: Dialect, target: string, s: string, st: State): (r: Step)
    ensures r.status == Success ==> Lookup(r.state.cells, target) == Some(IntVal(Atoi(s))) && IsInt32(Atoi(s))
    ensures d == Cpp && r.status == Success <==> d == Cpp && Stoi(s).Converted?
    ensures r.status == Failure <==> d == C && IsInt32(Atoi(s)) && Atoi(s) == 0 && !IsAllZeros(s)
    ensures d == C ==> (r.status == Success <==> IsInt32(Atoi(s)) && (Atoi(s) != 0 || IsAllZeros(s)))
  {
    if d == C then
      var n := Atoi(s);
      if !IsInt32(n) then Halt(st, UndefinedBehaviour(AtoiOutOfRange))
      else if n == 0 && !IsAllZeros(s) then Report(d, st, InvalidNumeric)
      else Store(st, target, IntVal(n))
    else
      match Stoi(s)
      case Converted(n) => Store(st, target, IntVal(n))
      case InvalidArgument => Halt(st, UncaughtException(InvalidArgumentError))
      case OutOfRange => Halt(st, UncaughtException(OutOfRangeError))
  }

  /** execute_assignment_function_call (main.c:217-319, main.cpp:156-216):
      `target = input("prompt")` or `target = int(variable)`. */
  function FunctionCallAssign(d: Dialect, target: string, functionName: string, param: Expr, st: State): (r: Step)
    ensures r.status == Success && functionName == "input" ==>
      st.io.input != [] ==> Lookup(r.state.cells, target) == Some(StrVal(ReadLine(d, st.io.input).value.0))
    ensures r.status == Success && functionName == "int" ==>
      && param.Unary? && param.unary.kind == VariableAccess
      && Lookup(st.cells, param.unary.text).Some?
      && Lookup(st.cells, param.unary.text).value.StrVal?
      && Lookup(r.state.cells, target) == Some(IntVal(Atoi(Lookup(st.cells, param.unary.text).value.s)))
    ensures r.status == Success ==> functionName == "input" || functionName == "int"
    ensures functionName != "input" ==> r.state.io == st.io || r.status == Failure
    ensures (functionName == "int" && param.Unary? && param.unary.kind == VariableAccess
             && Lookup(st.cells, param.unary.text).None?) ==> r == Report(d, st, NotDefined(param.unary.text))
  {
    if !param.Unary? then
      Halt(st, AssertionFailed)
    else
      var u := param.unary;
      if functionName == "input" then
        if u.kind != StrLiteral then
          Halt(st, Panic(UnsupportedInputParameter))
        else
          var prompted := Emit(st, Text(Stdout, u.text));
          match ReadLine(d, st.io.input)
          case None => Halt(prompted, UndefinedBehaviour(ReadPastEndOfInput))
          case Some((line, rest)) =>
            Store(prompted.(io := prompted.io.(input := rest)), target, StrVal(line))
      else if functionName == "int" then
        if u.kind != VariableAccess then
          Halt(st, Panic(UnsupportedIntParameter))
        else
          match Lookup(st.cells, u.text)
          case None => Report(d, st, NotDefined(u.text))
          case Some(v) =>
            if !v.StrVal? then Halt(st, Panic(IntRequiresString))
            else IntOfText(d, target, v.s, st)
      else
        Halt(st, Panic(UnsupportedAssignmentFunction))
  }

  // ---------------------------------------------------------------------
  // Assignment and print()

  /** execute_assignment (main.c:333-418, main.cpp:231-283). A variable
      source holding a pointer, a boolean or None is copied nowhere, yet the
      assignment succeeds (main.c:370-378 has no final else). */
  function Assign(d: Dialect, target: string, e: Expr, st: State): (r: Step)
    ensures e.Unary? && LiteralValue(e.unary).Some? && IsBasic(LiteralValue(e.unary).value) ==>
      r == Store(st, target, LiteralValue(e.unary).value)
    ensures e.Unary? && e.unary.kind == VariableAccess && Lookup(st.cells, e.unary.text).Some? ==>
      r.status == Success &&
      (IsBasic(Lookup(st.cells, e.unary.text).value) ==> Lookup(r.state.cells, target) == Lookup(st.cells, e.unary.text))
    ensures e.Unary? && e.unary.kind == VariableAccess && Lookup(st.cells, e.unary.text).None? ==>
      r == Report(d, st, NotDefined(e.unary.text))
  {
    match e
    case Unary(u) =>
      if u.kind == IntLiteral then
        var n := Atoi(u.text);
        if IsInt32(n) then Store(st, target, IntVal(n))
        else Halt(st, UndefinedBehaviour(AtoiOutOfRange))
      else if u.kind == StrLiteral then
        Store(st, target, StrVal(u.text))
      else if u.kind == RealLiteral then
        Store(st, target, RealVal(Strtod(u.text)))
      else if u.kind == VariableAccess then
        match Lookup(st.cells, u.text)
        case None => Report(d, st, NotDefined(u.text))
        case Some(v) =>
          if v.IntVal? || v.StrVal? || v.RealVal? then Store(st, target, v)
          else Step(Success, st)
      else
        Halt(st, Panic(UnsupportedAssignmentOperand))
    case Binary(lhs, op, rhs) =>
      if op == Plus then BinaryPlus(d, lhs, rhs, target, st)
      else Halt(st, Panic(UnsupportedBinaryExpression))
    case FunctionCallExpr(name, param) =>
      FunctionCallAssign(d, target, name, param, st)
  }

  /** How a dialect prints a double. */
  function FormatOf(d: Dialect): RealFormat
  {
    if d == C then FixedSixDecimals else SixSignificantDigits
  }

  /** execute_function_call (main.c:432-495, main.cpp:297-339): `print(x)`.
      It never writes memory or reads input, and prints exactly one line. */
  function CallStmt(d: Dialect, functionName: string, param: Expr, st: State): (r: Step)
    ensures r.state.cells == st.cells && r.state.io.input == st.io.input
    ensures r.state.io.output == st.io.output || |r.state.io.output| == |st.io.output| + 1
    ensures r.status == Failure <==>
      functionName == "print" && param.Unary? && param.unary.kind == VariableAccess &&
      Lookup(st.cells, param.unary.text).None?
    ensures r.status == Success ==>
      |r.state.io.output| == |st.io.output| + 1 &&
      r.state.io.output[..|st.io.output|] == st.io.output &&
      r.state.io.output[|st.io.output|].channel == Stdout
    // what print(literal) and print(variable) write
    ensures functionName == "print" && param.Unary? && param.unary.kind in {IntLiteral, RealLiteral, StrLiteral} ==>
      r.status == Success && r.state.io.output == st.io.output + [Text(Stdout, param.unary.text + "\n")]
    ensures functionName == "print" && param.Unary? && param.unary.kind == VariableAccess ==>
      var cell := Lookup(st.cells, param.unary.text);
      && (cell.None? ==> r.state.io.output == st.io.output + [Text(Stdout, NotDefined(param.unary.text))])
      && (cell.Some? && cell.value.IntVal? ==>
            r.status == Success && r.state.io.output == st.io.output + [Text(Stdout, IntText(cell.value.i) + "\n")])
      && (cell.Some? && cell.value.StrVal? ==>
            r.status == Success && r.state.io.output == st.io.output + [Text(Stdout, cell.value.s + "\n")])
      && (cell.Some? && cell.value.RealVal? ==>
            r.status == Success && r.state.io.output == st.io.output + [RealLine(Stdout, cell.value.d, FormatOf(d))])
  {
    if !param.Unary? then
      Halt(st, AssertionFailed)
    else
      var u := param.unary;
      if functionName != "print" then
        Halt(st, Panic(UnsupportedFunction))
      else if u.kind == IntLiteral || u.kind == RealLiteral || u.kind == StrLiteral then
        Step(Success, Emit(st, Text(Stdout, u.text + "\n")))
      else if u.kind == VariableAccess then
        match Lookup(st.cells, u.text)
        case None => Step(Failure, Emit(st, Text(Stdout, NotDefined(u.text))))
        case Some(v) =>
          match v
          case IntVal(i) => Step(Success, Emit(st, Text(Stdout, IntText(i) + "\n")))
          case StrVal(s) => Step(Success, Emit(st, Text(Stdout, s + "\n")))
          case RealVal(x) => Step(Success, Emit(st, RealLine(Stdout, x, FormatOf(d))))
          case _ => Halt(st, Panic(UnsupportedVariableType))
      else
        Halt(st, Panic(UnsupportedPrintParameter))
  }

  // ---------------------------------------------------------------------
  // while loops and statement lists

  /** The comparison a while loop fixes on entry, from the literal's kind
      and the variable's type at that moment (main.c:517-548). */
  datatype Guard =
    | IntGuard(n: int)         // int variable != int literal
    | IntRealGuard(x: real)    // int variable != real literal
    | RealGuard(x: real)       // real variable != any literal, read by strtod
    | StrGuard(s: string)      // str variable != str literal

  function EntryGuard(rhs: UnaryExpr, v: Value): (g: Option<Guard>)
    ensures g.None? <==>
      !((rhs.kind == IntLiteral && v.IntVal?) || (rhs.kind == RealLiteral && v.IntVal?) ||
        v.RealVal? || (rhs.kind == StrLiteral && v.StrVal?))
  {
    if rhs.kind == IntLiteral && v.IntVal? then Some(IntGuard(Atoi(rhs.text)))
    else if rhs.kind == RealLiteral && v.IntVal? then Some(IntRealGuard(Strtod(rhs.text)))
    else if v.RealVal? then Some(RealGuard(Strtod(rhs.text)))
    else if rhs.kind == StrLiteral && v.StrVal? then Some(StrGuard(rhs.text))
    else None
  }

  /** Whether the variable's current value still differs from the literal.
      The loop keeps reading the member its guard chose on entry; a variable
      the body has given another type no longer holds that member (None). */
  function Differs(g: Guard, cell: Option<Value>): Option<bool>
  {
    match (g, cell)
    case (IntGuard(n), Some(IntVal(i))) => Some(n != i)
    case (IntRealGuard(x), Some(IntVal(i))) => Some(x != i as real)
    case (RealGuard(x), Some(RealVal(y))) => Some(x != y)
    case (StrGuard(s), Some(StrVal(t))) => Some(s != t)
    case _ => None
  }

  /** execute (main.c:562-626, main.cpp:406-449): run the statements in
      order and stop at the first one that does not succeed. */
  function ExecBlock(d: Dialect, b: seq<Stmt>, st: State, fuel: nat): (r: Step)
    ensures b == [] ==> r == Step(Success, st)
    decreases fuel, BlockSize(b)
  {
    if b == [] then Step(Success, st)
    else
      var r1 := ExecStmt(d, b[0], st, fuel);
      if r1.status != Success then r1
      else
        ExecBlock(d, b[1..], r1.state, fuel)
  }

  /** One statement, as dispatched by execute. In main.c a `pass` leaves
      `success` at its initial false, so execution stops there
      (main.c:571, main.c:598-603); main.cpp starts from true. */
  function ExecStmt(d: Dialect, s: Stmt, st: State, fuel: nat): (r: Step)
    ensures !s.WhileLoop? && r.status != Success ==> r.state.cells == st.cells
    decreases fuel, StmtSize(s)
  {
    match s
    case Assignment(x, e) => Assign(d, x, e, st)
    case DerefPtrAssignment(_, _) => Halt(st, Panic(DerefPtrAssignmentUnsupported))
    case FunctionCall(name, param) => CallStmt(d, name, param, st)
    case IfThenElse(_, _, _) => Halt(st, Panic(IfThenElseUnsupported))
    case WhileLoop(cond, body) => ExecWhile(d, cond, body, st, fuel)
    case Pass => if d == C then Step(Failure, st) else Step(Success, st)
  }

  /** execute_while_loop (main.c:497-555, main.cpp:346-398). The condition's
      operator is not examined: every binary condition is read as
      `variable != literal`. */
  function ExecWhile(d: Dialect, cond: Expr, body: seq<Stmt>, st: State, fuel: nat): (r: Step)
    ensures cond.Binary? &&
      (Lookup(st.cells, cond.lhs.text).None? || EntryGuard(cond.rhs, Lookup(st.cells, cond.lhs.text).value).None?)
      ==> r.status == Failure && r.state.cells == st.cells && r.state.io.input == st.io.input
    ensures r.status == Success ==>
      && cond.Binary?
      && Lookup(st.cells, cond.lhs.text).Some?
      && EntryGuard(cond.rhs, Lookup(st.cells, cond.lhs.text).value).Some?
      && Differs(EntryGuard(cond.rhs, Lookup(st.cells, cond.lhs.text).value).value,
                 Lookup(r.state.cells, cond.lhs.text)) == Some(false)
    decreases fuel, BlockSize(body)
  {
    if !cond.Binary? then
      Halt(st, UndefinedBehaviour(ConditionNotBinary))
    else
      var name := cond.lhs.text;
      match Lookup(st.cells, name)
      case None => Report(d, st, NotDefined(name))
      case Some(v) =>
        match EntryGuard(cond.rhs, v)
        case None => Report(d, st, UnsupportedNotEqual)
        case Some(g) =>
          if g.IntGuard? && !IsInt32(g.n) then
            Halt(st, UndefinedBehaviour(AtoiOutOfRange))
          else ExecLoop(d, name, g, body, st, fuel)
  }

  /** The loop proper: test, run the body, repeat; a body that does not
      succeed ends the loop with its outcome. */
  function ExecLoop(d: Dialect, name: string, g: Guard, body: seq<Stmt>, st: State, fuel: nat): (r: Step)
    ensures r.status == Success ==> Differs(g, Lookup(r.state.cells, name)) == Some(false)
    ensures Differs(g, Lookup(st.cells, name)) == Some(false) ==> r == Step(Success, st) || fuel == 0
    ensures (fuel > 0 && Differs(g, Lookup(st.cells, name)) == Some(true)
             && ExecBlock(d, body, st, fuel - 1).status != Success) ==> r == ExecBlock(d, body, st, fuel - 1)
    decreases fuel, 0
  {
    if fuel == 0 then Step(OutOfFuel, st)
    else
      match Differs(g, Lookup(st.cells, name))
      case None => Halt(st, UndefinedBehaviour(WrongMemberRead))
      case Some(false) => Step(Success, st)
      case Some(true) =>
        var r1 := ExecBlock(d, body, st, fuel - 1);
        if r1.status != Success then r1
        else
          ExecLoop(d, name, g, body, r1.state, fuel - 1)
  }

  /** One more round of the loop: the value still differs and the body
      succeeds, so the loop goes on from the body's state. */
  lemma LoopAgain(d: Dialect, name: string, g: Guard, body: seq<Stmt>, st: State, fuel: nat)
    requires fuel > 0 && Differs(g, Lookup(st.cells, name)) == Some(true)
    requires ExecBlock(d, body, st, fuel - 1).status == Success
    ensures ExecLoop(d, name, g, body, st, fuel) == ExecLoop(d, name, g, body, ExecBlock(d, body, st, fuel - 1).state, fuel - 1)
  {
  }



}
