/** What every handler of the executor does to the state, whatever it
    computes: it writes at most the variable it assigns, and nothing at all
    when it does not succeed (Semantics.WritesAtMost); the output is only
    appended to, input lines are only consumed from the front, a defined
    name stays defined, and only basic values are ever stored
    (Semantics.Evolves). The statement-level lemmas follow the mutual
    recursion of execute and execute_while_loop. */
module Invariants {
  import opened Ast
  import opened Ram
  import opened Numeric
  import opened Semantics

  // ---------------------------------------------------------------------
  // The building blocks

  lemma EvolvesReflexive(s: State)
    ensures Evolves(s, s)
  {
    assert s.io.input[|s.io.input| - |s.io.input|..] == s.io.input;
  }

  /** A step that leaves the cells and the input alone and only appends to
      the output. */
  lemma OutputOnlyEvolves(s1: State, s2: State)
    requires s2.cells == s1.cells && s2.io.input == s1.io.input && s1.io.output <= s2.io.output
    ensures Evolves(s1, s2)
  {
    assert s1.io.input[|s1.io.input| - |s2.io.input|..] == s1.io.input;
  }

  lemma EmitEvolves(st: State, e: Event)
    ensures Evolves(st, Emit(st, e))
  {
    var r := Emit(st, e);
    assert st.io.output == r.io.output[..|st.io.output|];
    OutputOnlyEvolves(st, r);
  }

  lemma HaltFrame(st: State, fault: Fault, target: string)
    ensures WritesAtMost(st, Halt(st, fault), target) && Evolves(st, Halt(st, fault).state)
  {
    EvolvesReflexive(st);
  }

  lemma ReportFrame(d: Dialect, st: State, message: string, target: string)
    ensures WritesAtMost(st, Report(d, st, message), target) && Evolves(st, Report(d, st, message).state)
  {
    EmitEvolves(st, Text(ErrorChannel(d), message));
  }

  /** Writing `target` changes the value of `target` and of no other name,
      defines `target`, and keeps every value basic when `v` is. */
  lemma StoreFrame(st: State, target: string, v: Value)
    ensures WritesAtMost(st, Store(st, target, v), target)
    ensures (AllBasic(st.cells) ==> IsBasic(v)) ==> Evolves(st, Store(st, target, v).state)
  {
    var r := Store(st, target, v);
    EvolvesReflexive(st);
    if AllBasic(st.cells) && IsBasic(v) {
      forall y | Lookup(r.state.cells, y).Some?
        ensures IsBasic(Lookup(r.state.cells, y).value)
      {
        if y != target {
          assert Lookup(r.state.cells, y) == Lookup(st.cells, y);
        }
      }
    }
  }

  lemma StoreIntFrame(st: State, target: string, n: int)
    ensures WritesAtMost(st, StoreInt(st, target, n), target) && Evolves(st, StoreInt(st, target, n).state)
  {
    if IsInt32(n) {
      StoreFrame(st, target, IntVal(n));
    } else {
      HaltFrame(st, UndefinedBehaviour(SignedOverflow), target);
    }
  }

  /** A variable of a state whose values are all basic holds a basic value. */
  lemma LookupBasic(st: State, name: string)
    requires AllBasic(st.cells) && Lookup(st.cells, name).Some?
    ensures IsBasic(Lookup(st.cells, name).value)
  {
  }

  // ---------------------------------------------------------------------
  // The `+` operator

  lemma SumWithLiteralFrame(v: Value, rhs: UnaryExpr, target: string, st: State)
    ensures WritesAtMost(st, SumWithLiteral(v, rhs, target, st), target)
    ensures Evolves(st, SumWithLiteral(v, rhs, target, st).state)
  {
    match v
    case IntVal(i) => IntPlusLiteralFrame(i, rhs, target, st);
    case RealVal(x) =>
      RealPlusLiteral(x, rhs, target, st);
      StoreFrame(st, target, RealVal(x + Strtod(rhs.text)));
    case StrVal(text) => StrPlusLiteralFrame(text, rhs, target, st);
    case _ => OtherPlusLiteralFrame(v, rhs, target, st);
  }

  lemma StrPlusLiteralFrame(text: string, rhs: UnaryExpr, target: string, st: State)
    ensures WritesAtMost(st, SumWithLiteral(StrVal(text), rhs, target, st), target)
    ensures Evolves(st, SumWithLiteral(StrVal(text), rhs, target, st).state)
  {
    if rhs.kind == StrLiteral {
      StoreFrame(st, target, StrVal(text + rhs.text));
    } else {
      HaltFrame(st, Panic(UnsupportedAssignmentOperand), target);
    }
  }

  lemma OtherPlusLiteralFrame(v: Value, rhs: UnaryExpr, target: string, st: State)
    requires !v.IntVal? && !v.RealVal? && !v.StrVal?
    ensures WritesAtMost(st, SumWithLiteral(v, rhs, target, st), target)
    ensures Evolves(st, SumWithLiteral(v, rhs, target, st).state)
  {
    if rhs.kind == StrLiteral {
      HaltFrame(st, UndefinedBehaviour(NonStringRead), target);
    } else {
      HaltFrame(st, Panic(UnsupportedAssignmentOperand), target);
    }
  }

  lemma IntPlusLiteralFrame(i: int, rhs: UnaryExpr, target: string, st: State)
    ensures WritesAtMost(st, SumWithLiteral(IntVal(i), rhs, target, st), target)
    ensures Evolves(st, SumWithLiteral(IntVal(i), rhs, target, st).state)
  {
    var r := SumWithLiteral(IntVal(i), rhs, target, st);
    if rhs.kind == IntLiteral {
      IntPlusIntLiteralFrame(i, rhs, target, st);
    } else if rhs.kind == RealLiteral {
      var x := i as real + Strtod(rhs.text);
      assert r == Store(st, target, RealVal(x));
      StoreFrame(st, target, RealVal(x));
    } else if rhs.kind == StrLiteral {
      HaltFrame(st, UndefinedBehaviour(NonStringRead), target);
    } else {
      HaltFrame(st, Panic(UnsupportedAssignmentOperand), target);
    }
  }

  lemma IntPlusIntLiteralFrame(i: int, rhs: UnaryExpr, target: string, st: State)
    requires rhs.kind == IntLiteral
    ensures WritesAtMost(st, SumWithLiteral(IntVal(i), rhs, target, st), target)
    ensures Evolves(st, SumWithLiteral(IntVal(i), rhs, target, st).state)
  {
    IntPlusIntLiteral(i, rhs, target, st);
    if IsInt32(Atoi(rhs.text)) {
      StoreIntFrame(st, target, i + Atoi(rhs.text));
    } else {
      HaltFrame(st, UndefinedBehaviour(AtoiOutOfRange), target);
    }
  }

  lemma OneVarFrame(d: Dialect, lhs: UnaryExpr, rhs: UnaryExpr, target: string, st: State)
    ensures WritesAtMost(st, OneVar(d, lhs, rhs, target, st), target)
    ensures Evolves(st, OneVar(d, lhs, rhs, target, st).state)
  {
    match Lookup(st.cells, lhs.text)
    case None =>
      ReportFrame(d, st, NotDefined(lhs.text), target);
    case Some(v) =>
      if ((rhs.kind == IntLiteral || rhs.kind == RealLiteral) && v.StrVal?)
        || (rhs.kind == StrLiteral && (v.IntVal? || v.RealVal?))
      {
        ReportFrame(d, st, UnsupportedPlus, target);
      } else {
        SumWithLiteralFrame(v, rhs, target, st);
      }
  }

  lemma SumOfCellsFrame(d: Dialect, a: Value, b: Value, target: string, st: State)
    ensures WritesAtMost(st, SumOfCells(d, a, b, target, st), target)
    ensures Evolves(st, SumOfCells(d, a, b, target, st).state)
  {
    var r := SumOfCells(d, a, b, target, st);
    if a.IntVal? && b.IntVal? {
      StoreIntFrame(st, target, a.i + b.i);
    } else if d == Cpp && ((b.RealVal? && a.IntVal?) || (a.RealVal? && b.IntVal?)) {
      SumOfMixedCellsFrame(a, b, target, st);
    } else if b.RealVal? || a.RealVal? {
      SumOfRealCellsFrame(d, a, b, target, st);
    } else if b.StrVal? {
      if a.StrVal? {
        StoreFrame(st, target, StrVal(a.s + b.s));
      } else {
        HaltFrame(st, UndefinedBehaviour(NonStringRead), target);
      }
    } else {
      HaltFrame(st, Panic(UnsupportedAssignmentOperand), target);
    }
  }

  lemma SumOfMixedCellsFrame(a: Value, b: Value, target: string, st: State)
    requires (b.RealVal? && a.IntVal?) || (a.RealVal? && b.IntVal?)
    ensures WritesAtMost(st, SumOfCells(Cpp, a, b, target, st), target)
    ensures Evolves(st, SumOfCells(Cpp, a, b, target, st).state)
  {
    var r := SumOfCells(Cpp, a, b, target, st);
    if a.IntVal? {
      assert r == Store(st, target, RealVal(a.i as real + b.d));
      StoreFrame(st, target, RealVal(a.i as real + b.d));
    } else {
      assert r == Halt(st, UndefinedBehaviour(MixedMemberRead));
      HaltFrame(st, UndefinedBehaviour(MixedMemberRead), target);
    }
  }

  lemma SumOfRealCellsFrame(d: Dialect, a: Value, b: Value, target: string, st: State)
    requires !(a.IntVal? && b.IntVal?) && !(d == Cpp && ((b.RealVal? && a.IntVal?) || (a.RealVal? && b.IntVal?)))
    requires b.RealVal? || a.RealVal?
    ensures WritesAtMost(st, SumOfCells(d, a, b, target, st), target)
    ensures Evolves(st, SumOfCells(d, a, b, target, st).state)
  {
    var r := SumOfCells(d, a, b, target, st);
    if b.RealVal? && a.IntVal? {
      assert r == Store(st, target, RealVal(a.i as real + b.d));
      StoreFrame(st, target, RealVal(a.i as real + b.d));
    } else if a.RealVal? && b.IntVal? {
      assert r == Store(st, target, RealVal(b.i as real + a.d));
      StoreFrame(st, target, RealVal(b.i as real + a.d));
    } else if a.RealVal? && b.RealVal? {
      assert r == Store(st, target, RealVal(b.d + a.d));
      StoreFrame(st, target, RealVal(b.d + a.d));
    } else if b.StrVal? {
      HaltFrame(st, UndefinedBehaviour(NonStringRead), target);
    } else {
      HaltFrame(st, Panic(UnsupportedAssignmentOperand), target);
    }
  }

  lemma TwoVarFrame(d: Dialect, lhs: UnaryExpr, rhs: UnaryExpr, target: string, st: State)
    ensures WritesAtMost(st, TwoVar(d, lhs, rhs, target, st), target)
    ensures Evolves(st, TwoVar(d, lhs, rhs, target, st).state)
  {
    match (Lookup(st.cells, lhs.text), Lookup(st.cells, rhs.text))
    case (None, _) => ReportFrame(d, st, NotDefined(lhs.text), target);
    case (_, None) => ReportFrame(d, st, NotDefined(rhs.text), target);
    case (Some(a), Some(b)) =>
      if Mixes(TypeOf(a), TypeOf(b)) {
        ReportFrame(d, st, UnsupportedPlus, target);
      } else {
        SumOfCellsFrame(d, a, b, target, st);
      }
  }

  lemma BinaryPlusFrame(d: Dialect, lhs: UnaryExpr, rhs: UnaryExpr, target: string, st: State)
    ensures WritesAtMost(st, BinaryPlus(d, lhs, rhs, target, st), target)
    ensures Evolves(st, BinaryPlus(d, lhs, rhs, target, st).state)
  {
    if lhs.kind == VariableAccess {
      if rhs.kind != VariableAccess {
        OneVarFrame(d, lhs, rhs, target, st);
      } else {
        TwoVarFrame(d, lhs, rhs, target, st);
      }
    } else {
      HaltFrame(st, Panic(UnsupportedAssignmentOperand), target);
    }
  }

  // ---------------------------------------------------------------------
  // input(), int() and assignment

  lemma IntOfTextFrame(d: Dialect, target: string, s: string, st: State)
    ensures WritesAtMost(st, IntOfText(d, target, s, st), target)
    ensures Evolves(st, IntOfText(d, target, s, st).state)
  {
    if d == C {
      var n := Atoi(s);
      if !IsInt32(n) {
        HaltFrame(st, UndefinedBehaviour(AtoiOutOfRange), target);
      } else if n == 0 && !IsAllZeros(s) {
        ReportFrame(d, st, InvalidNumeric, target);
      } else {
        StoreFrame(st, target, IntVal(n));
      }
    } else {
      match Stoi(s)
      case Converted(n) => StoreFrame(st, target, IntVal(n));
      case InvalidArgument => HaltFrame(st, UncaughtException(InvalidArgumentError), target);
      case OutOfRange => HaltFrame(st, UncaughtException(OutOfRangeError), target);
    }
  }

  /** input() prints its prompt, consumes one line and stores it. */
  lemma InputFrame(d: Dialect, target: string, prompt: string, st: State)
    ensures var r := FunctionCallAssign(d, target, "input", Unary(UnaryExpr(StrLiteral, prompt)), st);
      WritesAtMost(st, r, target) && Evolves(st, r.state)
  {
    var prompted := Emit(st, Text(Stdout, prompt));
    EmitEvolves(st, Text(Stdout, prompt));
    match ReadLine(d, st.io.input)
    case None =>
      HaltFrame(prompted, UndefinedBehaviour(ReadPastEndOfInput), target);
    case Some((line, rest)) =>
      var consumed := prompted.(io := prompted.io.(input := rest));
      var input := st.io.input;
      assert IsSuffix(rest, input) by {
        if input == [] {
          assert rest == [];
        } else {
          assert rest == input[1..];
        }
      }
      assert Evolves(prompted, consumed) by {
        EvolvesReflexive(prompted);
        assert IsSuffix(consumed.io.input, prompted.io.input);
      }
      StoreFrame(consumed, target, StrVal(line));
      EvolvesTransitive(st, prompted, consumed);
      EvolvesTransitive(st, consumed, Store(consumed, target, StrVal(line)).state);
  }

  lemma FunctionCallAssignFrame(d: Dialect, target: string, functionName: string, param: Expr, st: State)
    ensures WritesAtMost(st, FunctionCallAssign(d, target, functionName, param, st), target)
    ensures Evolves(st, FunctionCallAssign(d, target, functionName, param, st).state)
  {
    if !param.Unary? {
      HaltFrame(st, AssertionFailed, target);
    } else {
      var u := param.unary;
      if functionName == "input" {
        if u.kind != StrLiteral {
          HaltFrame(st, Panic(UnsupportedInputParameter), target);
        } else {
          assert param == Unary(UnaryExpr(StrLiteral, u.text));
          InputFrame(d, target, u.text, st);
        }
      } else if functionName == "int" {
        if u.kind != VariableAccess {
          HaltFrame(st, Panic(UnsupportedIntParameter), target);
        } else {
          match Lookup(st.cells, u.text)
          case None => ReportFrame(d, st, NotDefined(u.text), target);
          case Some(v) =>
            if !v.StrVal? {
              HaltFrame(st, Panic(IntRequiresString), target);
            } else {
              IntOfTextFrame(d, target, v.s, st);
            }
        }
      } else {
        HaltFrame(st, Panic(UnsupportedAssignmentFunction), target);
      }
    }
  }

  lemma AssignFrame(d: Dialect, target: string, e: Expr, st: State)
    ensures WritesAtMost(st, Assign(d, target, e, st), target)
    ensures Evolves(st, Assign(d, target, e, st).state)
  {
    match e
    case Unary(u) =>
      if u.kind == IntLiteral {
        var n := Atoi(u.text);
        if IsInt32(n) {
          StoreFrame(st, target, IntVal(n));
        } else {
          HaltFrame(st, UndefinedBehaviour(AtoiOutOfRange), target);
        }
      } else if u.kind == StrLiteral {
        StoreFrame(st, target, StrVal(u.text));
      } else if u.kind == RealLiteral {
        StoreFrame(st, target, RealVal(Strtod(u.text)));
      } else if u.kind == VariableAccess {
        match Lookup(st.cells, u.text)
        case None => ReportFrame(d, st, NotDefined(u.text), target);
        case Some(v) =>
          if v.IntVal? || v.StrVal? || v.RealVal? {
            StoreFrame(st, target, v);
            if AllBasic(st.cells) {
              LookupBasic(st, u.text);
            }
          } else {
            EvolvesReflexive(st);
          }
      } else {
        HaltFrame(st, Panic(UnsupportedAssignmentOperand), target);
      }
    case Binary(lhs, op, rhs) =>
      if op == Plus {
        BinaryPlusFrame(d, lhs, rhs, target, st);
      } else {
        HaltFrame(st, Panic(UnsupportedBinaryExpression), target);
      }
    case FunctionCallExpr(name, param) =>
      FunctionCallAssignFrame(d, target, name, param, st);
  }

  /** print() changes neither the memory nor the input. */
  lemma CallStmtEvolves(d: Dialect, functionName: string, param: Expr, st: State)
    ensures Evolves(st, CallStmt(d, functionName, param, st).state)
  {
    var r := CallStmt(d, functionName, param, st);
    if r.state.io.output != st.io.output {
      assert st.io.output == r.state.io.output[..|st.io.output|];
    }
    OutputOnlyEvolves(st, r.state);
  }

  // ---------------------------------------------------------------------
  // Statements, blocks and loops

  lemma {:induction false} ExecBlockEvolves(d: Dialect, b: seq<Stmt>, st: State, fuel: nat)
    ensures Evolves(st, ExecBlock(d, b, st, fuel).state)
    decreases fuel, BlockSize(b)
  {
    if b == [] {
      EvolvesReflexive(st);
    } else {
      var r1 := ExecStmt(d, b[0], st, fuel);
      StmtSmallerThanBlock(b, 0);
      ExecStmtEvolves(d, b[0], st, fuel);
      if r1.status == Success {
        assert BlockSize(b[1..]) < BlockSize(b);
        ExecBlockEvolves(d, b[1..], r1.state, fuel);
        EvolvesTransitive(st, r1.state, ExecBlock(d, b[1..], r1.state, fuel).state);
      }
    }
  }

  lemma {:induction false} ExecStmtEvolves(d: Dialect, s: Stmt, st: State, fuel: nat)
    ensures Evolves(st, ExecStmt(d, s, st, fuel).state)
    decreases fuel, StmtSize(s)
  {
    match s
    case Assignment(x, e) => AssignFrame(d, x, e, st);
    case DerefPtrAssignment(_, _) => EvolvesReflexive(st);
    case FunctionCall(name, param) => CallStmtEvolves(d, name, param, st);
    case IfThenElse(_, _, _) => EvolvesReflexive(st);
    case WhileLoop(cond, body) => ExecWhileEvolves(d, cond, body, st, fuel);
    case Pass => EvolvesReflexive(st);
  }

  lemma {:induction false} ExecWhileEvolves(d: Dialect, cond: Expr, body: seq<Stmt>, st: State, fuel: nat)
    ensures Evolves(st, ExecWhile(d, cond, body, st, fuel).state)
    decreases fuel, BlockSize(body)
  {
    if !cond.Binary? {
      EvolvesReflexive(st);
    } else {
      var name := cond.lhs.text;
      match Lookup(st.cells, name)
      case None => ReportFrame(d, st, NotDefined(name), name);
      case Some(v) =>
        match EntryGuard(cond.rhs, v)
        case None => ReportFrame(d, st, UnsupportedNotEqual, name);
        case Some(g) =>
          if g.IntGuard? && !IsInt32(g.n) {
            EvolvesReflexive(st);
          } else {
            ExecLoopEvolves(d, name, g, body, st, fuel);
          }
    }
  }

  lemma {:induction false} ExecLoopEvolves(d: Dialect, name: string, g: Guard, body: seq<Stmt>, st: State, fuel: nat)
    ensures Evolves(st, ExecLoop(d, name, g, body, st, fuel).state)
    decreases fuel, 0
  {
    if fuel == 0 {
      EvolvesReflexive(st);
    } else {
      match Differs(g, Lookup(st.cells, name))
      case None => EvolvesReflexive(st);
      case Some(false) => EvolvesReflexive(st);
      case Some(true) =>
        var next: nat := fuel - 1;
        var r1 := ExecBlock(d, body, st, next);
        var r := ExecLoop(d, name, g, body, st, fuel);
        assert r == if r1.status != Success then r1 else ExecLoop(d, name, g, body, r1.state, next);
        ExecBlockEvolves(d, body, st, next);
        if r1.status == Success {
          ExecLoopEvolves(d, name, g, body, r1.state, next);
          EvolvesTransitive(st, r1.state, r.state);
        }
    }
  }
}
