/** The executor itself (main.c, main.cpp): handlers that read and write the
    Memory object in place, walk the statement list with a cursor and re-run
    loop bodies. Each handler is proved to do exactly what the function of the
    same name in Semantics says, on the cells the memory held before the
    call. Standard input and output are passed in and returned as an `Io`
    value.

    The handlers name every number they compute and hand it to a small lemma
    that states which branch of the Semantics function they are in; the
    arithmetic and the library conversions are then reasoned about once, on
    values, and not again in the presence of the heap. */
module Executor {
  import opened Ast
  import opened Ram
  import opened Numeric
  import opened Semantics

  /** The output after a runtime error message. */
  function Reported(d: Dialect, io: Io, message: string): Io
  {
    io.(output := io.output + [Text(ErrorChannel(d), message)])
  }

  // ---------------------------------------------------------------------
  // The branches of the Semantics functions, one value at a time

  lemma StoreIs(st: State, target: string, v: Value, cs: seq<Cell>)
    requires cs == Write(st.cells, target, v)
    ensures Store(st, target, v) == Step(Success, State(cs, st.io))
  {
  }

  lemma ReportIs(d: Dialect, st: State, message: string)
    ensures Report(d, st, message) == Step(Failure, State(st.cells, Reported(d, st.io, message)))
  {
  }

  lemma SumIntLiteral(v: Value, rhs: UnaryExpr, target: string, st: State, n: int, sum: int)
    requires rhs.kind == IntLiteral && v.IntVal? && n == Atoi(rhs.text) && sum == v.i + n
    ensures !IsInt32(n) ==> SumWithLiteral(v, rhs, target, st) == Halt(st, UndefinedBehaviour(AtoiOutOfRange))
    ensures IsInt32(n) ==> SumWithLiteral(v, rhs, target, st) == StoreInt(st, target, sum)
  {
    IntPlusIntLiteral(v.i, rhs, target, st);
  }

  lemma IntPlusRealLiteral(i: int, rhs: UnaryExpr, target: string, st: State, x: real)
    requires rhs.kind == RealLiteral && x == i as real + Strtod(rhs.text)
    ensures SumWithLiteral(IntVal(i), rhs, target, st) == Store(st, target, RealVal(x))
  {
  }

  lemma RealPlusLiteral(y: real, rhs: UnaryExpr, target: string, st: State, x: real)
    requires x == y + Strtod(rhs.text)
    ensures SumWithLiteral(RealVal(y), rhs, target, st) == Store(st, target, RealVal(x))
  {
  }

  lemma SumStrLiteral(v: Value, rhs: UnaryExpr, target: string, st: State)
    requires rhs.kind == StrLiteral && !v.RealVal?
    ensures !v.StrVal? ==> SumWithLiteral(v, rhs, target, st) == Halt(st, UndefinedBehaviour(NonStringRead))
    ensures v.StrVal? ==> SumWithLiteral(v, rhs, target, st) == Store(st, target, StrVal(v.s + rhs.text))
  {
  }

  lemma SumOfInts(d: Dialect, a: Value, b: Value, target: string, st: State, sum: int)
    requires a.IntVal? && b.IntVal? && sum == a.i + b.i
    ensures SumOfCells(d, a, b, target, st) == StoreInt(st, target, sum)
  {
  }

  lemma SumOfReals(d: Dialect, a: Value, b: Value, target: string, st: State, x: real)
    requires || (a.IntVal? && b.RealVal? && x == a.i as real + b.d)
             || (d == C && a.RealVal? && b.IntVal? && x == b.i as real + a.d)
             || (a.RealVal? && b.RealVal? && x == b.d + a.d)
    ensures SumOfCells(d, a, b, target, st) == Store(st, target, RealVal(x))
  {
  }

  lemma IntOfTextC(target: string, s: string, st: State, n: int, zeros: bool)
    requires n == Atoi(s) && (zeros <==> IsAllZeros(s))
    ensures !IsInt32(n) ==> IntOfText(C, target, s, st) == Halt(st, UndefinedBehaviour(AtoiOutOfRange))
    ensures IsInt32(n) && n == 0 && !zeros ==> IntOfText(C, target, s, st) == Report(C, st, InvalidNumeric)
    ensures IsInt32(n) && (n != 0 || zeros) ==> IntOfText(C, target, s, st) == Store(st, target, IntVal(n))
  {
  }

  lemma IntOfTextCpp(target: string, s: string, st: State, c: Conversion)
    requires c == Stoi(s)
    ensures c == InvalidArgument ==> IntOfText(Cpp, target, s, st) == Halt(st, UncaughtException(InvalidArgumentError))
    ensures c == OutOfRange ==> IntOfText(Cpp, target, s, st) == Halt(st, UncaughtException(OutOfRangeError))
    ensures c.Converted? ==> IntOfText(Cpp, target, s, st) == Store(st, target, IntVal(c.value))
  {
  }

  lemma AssignLiteral(d: Dialect, target: string, u: UnaryExpr, st: State, v: Value)
    requires || (u.kind == IntLiteral && v == IntVal(Atoi(u.text)))
             || (u.kind == StrLiteral && v == StrVal(u.text))
             || (u.kind == RealLiteral && v == RealVal(Strtod(u.text)))
    ensures u.kind == IntLiteral && !IsInt32(v.i) ==>
      Assign(d, target, Unary(u), st) == Halt(st, UndefinedBehaviour(AtoiOutOfRange))
    ensures !(u.kind == IntLiteral && !IsInt32(v.i)) ==> Assign(d, target, Unary(u), st) == Store(st, target, v)
  {
  }

  lemma WhileEntry(d: Dialect, cond: Expr, body: seq<Stmt>, st: State, fuel: nat, v: Value, g: Option<Guard>)
    requires cond.Binary? && Lookup(st.cells, cond.lhs.text) == Some(v) && g == EntryGuard(cond.rhs, v)
    ensures g.None? ==> ExecWhile(d, cond, body, st, fuel) == Report(d, st, UnsupportedNotEqual)
    ensures g.Some? && g.value.IntGuard? && !IsInt32(g.value.n) ==>
      ExecWhile(d, cond, body, st, fuel) == Halt(st, UndefinedBehaviour(AtoiOutOfRange))
    ensures g.Some? && !(g.value.IntGuard? && !IsInt32(g.value.n)) ==>
      ExecWhile(d, cond, body, st, fuel) == ExecLoop(d, cond.lhs.text, g.value, body, st, fuel)
  {
  }

  lemma LoopTest(d: Dialect, name: string, g: Guard, body: seq<Stmt>, st: State, fuel: nat, differs: Option<bool>)
    requires fuel > 0 && differs == Differs(g, Lookup(st.cells, name))
    ensures differs.None? ==> ExecLoop(d, name, g, body, st, fuel) == Halt(st, UndefinedBehaviour(WrongMemberRead))
    ensures differs == Some(false) ==> ExecLoop(d, name, g, body, st, fuel) == Step(Success, st)
  {
  }

  lemma LoopStops(d: Dialect, name: string, g: Guard, body: seq<Stmt>, st: State, fuel: nat, next: nat, r1: Step)
    requires fuel > 0 && next == fuel - 1 && Differs(g, Lookup(st.cells, name)) == Some(true)
    requires r1 == ExecBlock(d, body, st, next) && r1.status != Success
    ensures ExecLoop(d, name, g, body, st, fuel) == r1
  {
  }

  lemma LoopContinues(d: Dialect, name: string, g: Guard, body: seq<Stmt>, st: State, fuel: nat, next: nat, r1: Step)
    requires fuel > 0 && next == fuel - 1 && Differs(g, Lookup(st.cells, name)) == Some(true)
    requires r1 == ExecBlock(d, body, st, next) && r1.status == Success
    ensures ExecLoop(d, name, g, body, st, fuel) == ExecLoop(d, name, g, body, r1.state, next)
  {
    LoopAgain(d, name, g, body, st, fuel);
  }

  lemma BlockStep(d: Dialect, b: seq<Stmt>, cur: nat, next: nat, st: State, fuel: nat, r1: Step)
    requires cur < |b| && next == cur + 1 && r1 == ExecStmt(d, b[cur], st, fuel)
    ensures r1.status != Success ==> ExecBlock(d, b[cur..], st, fuel) == r1
    ensures r1.status == Success ==> ExecBlock(d, b[cur..], st, fuel) == ExecBlock(d, b[next..], r1.state, fuel)
  {
    assert b[cur..][0] == b[cur];
    assert b[cur..][1..] == b[next..];
  }

  // ---------------------------------------------------------------------
  // The handlers

  /** binary_plus_one_var (main.c:47-108, main.cpp:35-74). */
  method BinaryPlusOneVar(d: Dialect, lhs: UnaryExpr, rhs: UnaryExpr, target: string, memory: Memory, io: Io)
    returns (status: Status, io': Io)
    requires memory.Valid()
    modifies memory.Repr
    ensures memory.Valid() && fresh(memory.Repr - old(memory.Repr))
    ensures Step(status, State(memory.Contents(), io')) == OneVar(d, lhs, rhs, target, State(old(memory.Contents()), io))
  {
    ghost var st := State(memory.Contents(), io);
    var cell := memory.GetCellById(lhs.text);
    if cell.None? {
      ReportIs(d, st, NotDefined(lhs.text));
      return Failure, Reported(d, io, NotDefined(lhs.text));
    }
    var v := cell.value.value;
    if ((rhs.kind == IntLiteral || rhs.kind == RealLiteral) && v.StrVal?)
      || (rhs.kind == StrLiteral && (v.IntVal? || v.RealVal?))
    {
      ReportIs(d, st, UnsupportedPlus);
      return Failure, Reported(d, io, UnsupportedPlus);
    }
    status, io' := AddLiteral(v, rhs, target, memory, io);
  }

  /** The arithmetic and concatenation branches of binary_plus_one_var
      (main.c:64-106, main.cpp:50-72), for a variable holding `v`. */
  method AddLiteral(v: Value, rhs: UnaryExpr, target: string, memory: Memory, io: Io)
    returns (status: Status, io': Io)
    requires memory.Valid()
    modifies memory.Repr
    ensures memory.Valid() && fresh(memory.Repr - old(memory.Repr))
    ensures Step(status, State(memory.Contents(), io')) == SumWithLiteral(v, rhs, target, State(old(memory.Contents()), io))
  {
    ghost var st := State(memory.Contents(), io);
    var literal := rhs.text;
    if rhs.kind == IntLiteral && v.IntVal? {
      var value := Atoi(literal);
      var sum := v.i + value;
      SumIntLiteral(v, rhs, target, st, value, sum);
      if !IsInt32(value) {
        return Abort(UndefinedBehaviour(AtoiOutOfRange)), io;
      }
      // the sum of two ints is computed in int: leaving its range is undefined
      if !IsInt32(sum) {
        return Abort(UndefinedBehaviour(SignedOverflow)), io;
      }
      memory.WriteIntById(target, sum);
      StoreIs(st, target, IntVal(sum), memory.Contents());
    } else if rhs.kind == RealLiteral && v.IntVal? {
      var value := Strtod(literal);
      var sum := v.i as real + value;
      IntPlusRealLiteral(v.i, rhs, target, st, sum);
      memory.WriteRealById(target, sum);
      StoreIs(st, target, RealVal(sum), memory.Contents());
    } else if v.RealVal? {
      var value := Strtod(literal);
      var sum := v.d + value;
      RealPlusLiteral(v.d, rhs, target, st, sum);
      memory.WriteRealById(target, sum);
      StoreIs(st, target, RealVal(sum), memory.Contents());
    } else if rhs.kind == StrLiteral {
      SumStrLiteral(v, rhs, target, st);
      if !v.StrVal? {
        return Abort(UndefinedBehaviour(NonStringRead)), io;
      }
      memory.WriteStrById(target, v.s + literal);
      StoreIs(st, target, StrVal(v.s + literal), memory.Contents());
    } else {
      return Abort(Panic(UnsupportedAssignmentOperand)), io;
    }
    return Success, io;
  }

  /** binary_plus_two_var (main.c:112-178, main.cpp:78-121). */
  method BinaryPlusTwoVar(d: Dialect, lhs: UnaryExpr, rhs: UnaryExpr, target: string, memory: Memory, io: Io)
    returns (status: Status, io': Io)
    requires memory.Valid()
    modifies memory.Repr
    ensures memory.Valid() && fresh(memory.Repr - old(memory.Repr))
    ensures Step(status, State(memory.Contents(), io')) == TwoVar(d, lhs, rhs, target, State(old(memory.Contents()), io))
  {
    ghost var st := State(memory.Contents(), io);
    var cell1 := memory.GetCellById(lhs.text);
    var cell2 := memory.GetCellById(rhs.text);
    if cell1.None? {
      ReportIs(d, st, NotDefined(lhs.text));
      return Failure, Reported(d, io, NotDefined(lhs.text));
    }
    if cell2.None? {
      ReportIs(d, st, NotDefined(rhs.text));
      return Failure, Reported(d, io, NotDefined(rhs.text));
    }
    var a, b := cell1.value.value, cell2.value.value;
    if Mixes(TypeOf(a), TypeOf(b)) {
      ReportIs(d, st, UnsupportedPlus);
      return Failure, Reported(d, io, UnsupportedPlus);
    }
    status, io' := AddCells(d, a, b, target, memory, io);
  }

  /** The arithmetic and concatenation branches of binary_plus_two_var
      (main.c:136-176, main.cpp:93-119), for cells holding `a` and `b`. */
  method AddCells(d: Dialect, a: Value, b: Value, target: string, memory: Memory, io: Io)
    returns (status: Status, io': Io)
    requires memory.Valid()
    modifies memory.Repr
    ensures memory.Valid() && fresh(memory.Repr - old(memory.Repr))
    ensures Step(status, State(memory.Contents(), io')) == SumOfCells(d, a, b, target, State(old(memory.Contents()), io))
  {
    ghost var st := State(memory.Contents(), io);
    if a.IntVal? && b.IntVal? {
      var value := a.i + b.i;
      SumOfInts(d, a, b, target, st, value);
      if !IsInt32(value) {
        return Abort(UndefinedBehaviour(SignedOverflow)), io;
      }
      memory.WriteIntById(target, value);
      StoreIs(st, target, IntVal(value), memory.Contents());
    } else if d == Cpp && ((b.RealVal? && a.IntVal?) || (a.RealVal? && b.IntVal?)) {
      // main.cpp's merged branch reads cell1's int and cell2's double
      if !a.IntVal? {
        return Abort(UndefinedBehaviour(MixedMemberRead)), io;
      }
      var value := a.i as real + b.d;
      SumOfReals(d, a, b, target, st, value);
      memory.WriteRealById(target, value);
      StoreIs(st, target, RealVal(value), memory.Contents());
    } else if b.RealVal? && a.IntVal? {
      var value := a.i as real + b.d;
      SumOfReals(d, a, b, target, st, value);
      memory.WriteRealById(target, value);
      StoreIs(st, target, RealVal(value), memory.Contents());
    } else if a.RealVal? && b.IntVal? {
      var value := b.i as real + a.d;
      SumOfReals(d, a, b, target, st, value);
      memory.WriteRealById(target, value);
      StoreIs(st, target, RealVal(value), memory.Contents());
    } else if a.RealVal? && b.RealVal? {
      var value := b.d + a.d;
      SumOfReals(d, a, b, target, st, value);
      memory.WriteRealById(target, value);
      StoreIs(st, target, RealVal(value), memory.Contents());
    } else if b.StrVal? {
      if !a.StrVal? {
        return Abort(UndefinedBehaviour(NonStringRead)), io;
      }
      memory.WriteStrById(target, a.s + b.s);
      StoreIs(st, target, StrVal(a.s + b.s), memory.Contents());
    } else {
      return Abort(Panic(UnsupportedAssignmentOperand)), io;
    }
    return Success, io;
  }

  /** binary_plus (main.c:183-205, main.cpp:126-143). */
  method BinaryPlus(d: Dialect, lhs: UnaryExpr, rhs: UnaryExpr, target: string, memory: Memory, io: Io)
    returns (status: Status, io': Io)
    requires memory.Valid()
    modifies memory.Repr
    ensures memory.Valid() && fresh(memory.Repr - old(memory.Repr))
    ensures Step(status, State(memory.Contents(), io')) == Semantics.BinaryPlus(d, lhs, rhs, target, State(old(memory.Contents()), io))
  {
    if lhs.kind == VariableAccess {
      if rhs.kind != VariableAccess {
        status, io' := BinaryPlusOneVar(d, lhs, rhs, target, memory, io);
      } else {
        status, io' := BinaryPlusTwoVar(d, lhs, rhs, target, memory, io);
      }
    } else {
      status, io' := Abort(Panic(UnsupportedAssignmentOperand)), io;
    }
  }

  /** The int() branch of execute_assignment_function_call (main.c:258-310,
      main.cpp:184-210), once the argument is known to hold the string `s`. */
  method ConvertToInt(d: Dialect, target: string, s: string, memory: Memory, io: Io)
    returns (status: Status, io': Io)
    requires memory.Valid()
    modifies memory.Repr
    ensures memory.Valid() && fresh(memory.Repr - old(memory.Repr))
    ensures Step(status, State(memory.Contents(), io')) == IntOfText(d, target, s, State(old(memory.Contents()), io))
  {
    ghost var st := State(memory.Contents(), io);
    io' := io;
    if d == C {
      var value := Atoi(s);
      var zeros := AllZeros(s);
      IntOfTextC(target, s, st, value, zeros);
      if !IsInt32(value) {
        return Abort(UndefinedBehaviour(AtoiOutOfRange)), io;
      }
      if value == 0 && !zeros {
        ReportIs(d, st, InvalidNumeric);
        return Failure, Reported(d, io, InvalidNumeric);
      }
      memory.WriteIntById(target, value);
      StoreIs(st, target, IntVal(value), memory.Contents());
    } else {
      var conversion := Stoi(s);
      IntOfTextCpp(target, s, st, conversion);
      match conversion
      case InvalidArgument => return Abort(UncaughtException(InvalidArgumentError)), io;
      case OutOfRange => return Abort(UncaughtException(OutOfRangeError)), io;
      case Converted(value) =>
        memory.WriteIntById(target, value);
        StoreIs(st, target, IntVal(value), memory.Contents());
    }
    status := Success;
  }

  /** execute_assignment_function_call (main.c:217-319, main.cpp:156-216).
      The line input() reads is the next line of `io.input`. */
  method ExecuteAssignmentFunctionCall(d: Dialect, target: string, functionName: string, param: Expr, memory: Memory, io: Io)
    returns (status: Status, io': Io)
    requires memory.Valid()
    modifies memory.Repr
    ensures memory.Valid() && fresh(memory.Repr - old(memory.Repr))
    ensures Step(status, State(memory.Contents(), io')) ==
      FunctionCallAssign(d, target, functionName, param, State(old(memory.Contents()), io))
  {
    ghost var st := State(memory.Contents(), io);
    if !param.Unary? {
      return Abort(AssertionFailed), io;
    }
    var unary := param.unary;
    if functionName == "input" {
      if unary.kind != StrLiteral {
        return Abort(Panic(UnsupportedInputParameter)), io;
      }
      io' := io.(output := io.output + [Text(Stdout, unary.text)]);
      var line := ReadLine(d, io.input);
      if line.None? {
        return Abort(UndefinedBehaviour(ReadPastEndOfInput)), io';
      }
      io' := io'.(input := line.value.1);
      memory.WriteStrById(target, line.value.0);
      StoreIs(State(st.cells, io'), target, StrVal(line.value.0), memory.Contents());
      status := Success;
    } else if functionName == "int" {
      if unary.kind != VariableAccess {
        return Abort(Panic(UnsupportedIntParameter)), io;
      }
      var cell := memory.GetCellById(unary.text);
      if cell.None? {
        ReportIs(d, st, NotDefined(unary.text));
        return Failure, Reported(d, io, NotDefined(unary.text));
      }
      var v := cell.value.value;
      if !v.StrVal? {
        return Abort(Panic(IntRequiresString)), io;
      }
      status, io' := ConvertToInt(d, target, v.s, memory, io);
    } else {
      return Abort(Panic(UnsupportedAssignmentFunction)), io;
    }
  }

  /** execute_assignment (main.c:333-418, main.cpp:231-283). */
  method ExecuteAssignment(d: Dialect, target: string, e: Expr, memory: Memory, io: Io)
    returns (status: Status, io': Io)
    requires memory.Valid()
    modifies memory.Repr
    ensures memory.Valid() && fresh(memory.Repr - old(memory.Repr))
    ensures Step(status, State(memory.Contents(), io')) == Assign(d, target, e, State(old(memory.Contents()), io))
  {
    ghost var st := State(memory.Contents(), io);
    match e
    case Unary(unary) =>
      if unary.kind == IntLiteral {
        var value := Atoi(unary.text);
        AssignLiteral(d, target, unary, st, IntVal(value));
        if !IsInt32(value) {
          return Abort(UndefinedBehaviour(AtoiOutOfRange)), io;
        }
        memory.WriteIntById(target, value);
        StoreIs(st, target, IntVal(value), memory.Contents());
      } else if unary.kind == StrLiteral {
        AssignLiteral(d, target, unary, st, StrVal(unary.text));
        memory.WriteStrById(target, unary.text);
        StoreIs(st, target, StrVal(unary.text), memory.Contents());
      } else if unary.kind == RealLiteral {
        var num := Strtod(unary.text);
        AssignLiteral(d, target, unary, st, RealVal(num));
        memory.WriteRealById(target, num);
        StoreIs(st, target, RealVal(num), memory.Contents());
      } else if unary.kind == VariableAccess {
        var cell := memory.GetCellById(unary.text);
        if cell.None? {
          ReportIs(d, st, NotDefined(unary.text));
          return Failure, Reported(d, io, NotDefined(unary.text));
        }
        var v := cell.value.value;
        if v.IntVal? {
          memory.WriteIntById(target, v.i);
          StoreIs(st, target, v, memory.Contents());
        } else if v.StrVal? {
          memory.WriteStrById(target, v.s);
          StoreIs(st, target, v, memory.Contents());
        } else if v.RealVal? {
          memory.WriteRealById(target, v.d);
          StoreIs(st, target, v, memory.Contents());
        }
      } else {
        return Abort(Panic(UnsupportedAssignmentOperand)), io;
      }
      return Success, io;
    case Binary(lhs, op, rhs) =>
      if op == Plus {
        status, io' := BinaryPlus(d, lhs, rhs, target, memory, io);
      } else {
        return Abort(Panic(UnsupportedBinaryExpression)), io;
      }
    case FunctionCallExpr(name, param) =>
      status, io' := ExecuteAssignmentFunctionCall(d, target, name, param, memory, io);
  }

  /** execute_function_call (main.c:432-495, main.cpp:297-339): print(). */
  method ExecuteFunctionCall(d: Dialect, functionName: string, param: Expr, memory: Memory, io: Io)
    returns (status: Status, io': Io)
    requires memory.Valid()
    ensures Step(status, State(memory.Contents(), io')) == CallStmt(d, functionName, param, State(memory.Contents(), io))
  {
    if !param.Unary? {
      return Abort(AssertionFailed), io;
    }
    var unary := param.unary;
    if functionName != "print" {
      return Abort(Panic(UnsupportedFunction)), io;
    }
    if unary.kind == IntLiteral || unary.kind == RealLiteral || unary.kind == StrLiteral {
      return Success, io.(output := io.output + [Text(Stdout, unary.text + "\n")]);
    } else if unary.kind == VariableAccess {
      var cell := memory.GetCellById(unary.text);
      if cell.None? {
        return Failure, io.(output := io.output + [Text(Stdout, NotDefined(unary.text))]);
      }
      match cell.value.value
      case IntVal(i) => return Success, io.(output := io.output + [Text(Stdout, IntText(i) + "\n")]);
      case StrVal(s) => return Success, io.(output := io.output + [Text(Stdout, s + "\n")]);
      case RealVal(x) => return Success, io.(output := io.output + [RealLine(Stdout, x, FormatOf(d))]);
      case _ => return Abort(Panic(UnsupportedVariableType)), io;
    } else {
      return Abort(Panic(UnsupportedPrintParameter)), io;
    }
  }

  /** execute_while_loop (main.c:497-555, main.cpp:346-398). The guard is
      chosen once, from the variable's type on entry; each test re-reads the
      variable. */
  method ExecuteWhileLoop(d: Dialect, cond: Expr, body: seq<Stmt>, memory: Memory, io: Io, fuel: nat)
    returns (status: Status, io': Io)
    requires memory.Valid()
    modifies memory.Repr
    ensures memory.Valid() && fresh(memory.Repr - old(memory.Repr))
    ensures Step(status, State(memory.Contents(), io')) == ExecWhile(d, cond, body, State(old(memory.Contents()), io), fuel)
    decreases fuel, BlockSize(body)
  {
    ghost var st := State(memory.Contents(), io);
    if !cond.Binary? {
      return Abort(UndefinedBehaviour(ConditionNotBinary)), io;
    }
    var name := cond.lhs.text;
    var cell := memory.GetCellById(name);
    if cell.None? {
      ReportIs(d, st, NotDefined(name));
      return Failure, Reported(d, io, NotDefined(name));
    }
    var entry := EntryGuard(cond.rhs, cell.value.value);
    WhileEntry(d, cond, body, st, fuel, cell.value.value, entry);
    if entry.None? {
      ReportIs(d, st, UnsupportedNotEqual);
      return Failure, Reported(d, io, UnsupportedNotEqual);
    }
    var guard := entry.value;
    if guard.IntGuard? && !IsInt32(guard.n) {
      return Abort(UndefinedBehaviour(AtoiOutOfRange)), io;
    }
    status, io' := RunLoop(d, name, guard, body, memory, io, fuel);
  }

  /** The loop of execute_while_loop (main.c:517-548, main.cpp:366-392)
      once the guard is fixed: test, run the body, repeat, for at most
      `fuel` rounds. */
  method RunLoop(d: Dialect, name: string, guard: Guard, body: seq<Stmt>, memory: Memory, io: Io, fuel: nat)
    returns (status: Status, io': Io)
    requires memory.Valid()
    modifies memory.Repr
    ensures memory.Valid() && fresh(memory.Repr - old(memory.Repr))
    ensures Step(status, State(memory.Contents(), io')) == ExecLoop(d, name, guard, body, State(old(memory.Contents()), io), fuel)
    decreases fuel, 0
  {
    ghost var st := State(memory.Contents(), io);
    var remaining: nat := fuel;
    io' := io;
    while remaining > 0
      invariant memory.Valid() && fresh(memory.Repr - old(memory.Repr))
      invariant remaining <= fuel
      invariant ExecLoop(d, name, guard, body, State(memory.Contents(), io'), remaining) ==
        ExecLoop(d, name, guard, body, st, fuel)
      decreases remaining
    {
      ghost var before := State(memory.Contents(), io');
      var current := memory.GetCellById(name);
      var differs := Differs(guard, if current.None? then None else Some(current.value.value));
      LoopTest(d, name, guard, body, before, remaining, differs);
      if differs.None? {
        return Abort(UndefinedBehaviour(WrongMemberRead)), io';
      }
      if !differs.value {
        return Success, io';
      }
      var next: nat := remaining - 1;
      status, io' := Execute(d, body, memory, io', next);
      if status != Success {
        LoopStops(d, name, guard, body, before, remaining, next, Step(status, State(memory.Contents(), io')));
        return;
      }
      LoopContinues(d, name, guard, body, before, remaining, next, Step(status, State(memory.Contents(), io')));
      remaining := next;
    }
    status := OutOfFuel;
  }

  /** execute (main.c:562-626, main.cpp:406-449): a cursor walks the
      statements and stops at the first one that does not succeed. `success`
      starts out false in main.c and true in main.cpp, which is what a `pass`
      statement leaves behind. */
  method Execute(d: Dialect, program: seq<Stmt>, memory: Memory, io: Io, fuel: nat)
    returns (status: Status, io': Io)
    requires memory.Valid()
    modifies memory.Repr
    ensures memory.Valid() && fresh(memory.Repr - old(memory.Repr))
    ensures Step(status, State(memory.Contents(), io')) == ExecBlock(d, program, State(old(memory.Contents()), io), fuel)
    decreases fuel, BlockSize(program)
  {
    ghost var st := State(memory.Contents(), io);
    var cur := 0;
    io' := io;
    while cur < |program|
      invariant 0 <= cur <= |program|
      invariant memory.Valid() && fresh(memory.Repr - old(memory.Repr))
      invariant ExecBlock(d, program[cur..], State(memory.Contents(), io'), fuel) == ExecBlock(d, program, st, fuel)
      decreases |program| - cur
    {
      ghost var before := State(memory.Contents(), io');
      var success: Status := if d == C then Failure else Success;
      StmtSmallerThanBlock(program, cur);
      match program[cur] {
        case Assignment(x, e) =>
          success, io' := ExecuteAssignment(d, x, e, memory, io');
        case DerefPtrAssignment(_, _) =>
          success := Abort(Panic(DerefPtrAssignmentUnsupported));
        case FunctionCall(name, param) =>
          success, io' := ExecuteFunctionCall(d, name, param, memory, io');
        case IfThenElse(_, _, _) =>
          success := Abort(Panic(IfThenElseUnsupported));
        case WhileLoop(cond, body) =>
          success, io' := ExecuteWhileLoop(d, cond, body, memory, io', fuel);
        case Pass =>
      }
      var next := cur + 1;
      BlockStep(d, program, cur, next, before, fuel, Step(success, State(memory.Contents(), io')));
      if success != Success {
        return success, io';
      }
      cur := next;
    }
    assert program[cur..] == [];
    status := Success;
  }
}
