/** What the executor's handlers compute, measured against independent
    references: Python's `+` (Semantics.PythonPlus) for binary_plus, the
    printed text of an int for int(), and the sequential reading of a
    statement list for execute. The places where main.c and main.cpp part
    from the reference, or from each other, are stated as lemmas of their
    own. */
module Properties {
  import opened Ast
  import opened Ram
  import opened Numeric
  import opened Semantics

  // ---------------------------------------------------------------------
  // binary_plus against Python's `+`

  /** A literal's text that is a whole numeral (after optional white space
      and sign), as the scanner hands an int literal to the parser. */
  predicate IsIntegerText(s: string)
  {
    var (_, j) := SignAt(s, SpaceEnd(s, 0));
    DigitsEnd(s, j) == |s|
  }

  /** strtod and atoi agree on a whole numeral. */
  lemma StrtodOfIntegerText(s: string)
    requires IsIntegerText(s)
    ensures Strtod(s) == Atoi(s) as real
  {
    var (negative, j) := SignAt(s, SpaceEnd(s, 0));
    var k := DigitsEnd(s, j);
    assert ScanIntPrefix(s) == IntPrefix(negative, s[j..k]);
  }

  /** binary_plus_one_var, in both executors, computes Python's `+` of the
      variable and the literal: the sum, the concatenation, the overflow of
      an int sum, and the type error of a number with a string. */
  lemma OneVarAgreesWithPython(d: Dialect, lhs: UnaryExpr, rhs: UnaryExpr, target: string, st: State)
    requires Lookup(st.cells, lhs.text).Some? && IsBasic(Lookup(st.cells, lhs.text).value)
    requires LiteralValue(rhs).Some? && IsBasic(LiteralValue(rhs).value)
    requires rhs.kind == IntLiteral ==> IsIntegerText(rhs.text)
    ensures OneVar(d, lhs, rhs, target, st) ==
      PlusOutcome(d, st, target, PythonPlus(Lookup(st.cells, lhs.text).value, LiteralValue(rhs).value))
  {
    var v := Lookup(st.cells, lhs.text).value;
    assert OneVar(d, lhs, rhs, target, st) == AddLiteral(d, v, rhs, target, st);
    AddLiteralAgreesWithPython(d, v, rhs, target, st);
  }

  lemma AddLiteralAgreesWithPython(d: Dialect, v: Value, rhs: UnaryExpr, target: string, st: State)
    requires IsBasic(v) && LiteralValue(rhs).Some? && IsBasic(LiteralValue(rhs).value)
    requires rhs.kind == IntLiteral ==> IsIntegerText(rhs.text)
    ensures AddLiteral(d, v, rhs, target, st) == PlusOutcome(d, st, target, PythonPlus(v, LiteralValue(rhs).value))
  {
    var w := LiteralValue(rhs).value;
    if Mixes(TypeOf(v), TypeOf(w)) {
      MixedPlusLiteral(d, v, rhs, target, st);
    } else if v.IntVal? && rhs.kind == IntLiteral {
      IntPlusIntAgrees(d, v.i, rhs, target, st);
    } else if v.IntVal? {
      IntPlusReal(d, v.i, rhs, target, st);
    } else if v.RealVal? {
      RealPlusNumber(d, v.d, rhs, target, st);
    } else {
      StrPlusStrText(d, v.s, rhs, target, st);
    }
  }

  /** Two ints are added; the sum is stored with its `int` range check. */
  lemma IntPlusIntAgrees(d: Dialect, i: int, rhs: UnaryExpr, target: string, st: State)
    requires rhs.kind == IntLiteral && IsInt32(i) && IsInt32(Atoi(rhs.text))
    ensures AddLiteral(d, IntVal(i), rhs, target, st) == PlusOutcome(d, st, target, PythonPlus(IntVal(i), LiteralValue(rhs).value))
  {
    assert PythonPlus(IntVal(i), LiteralValue(rhs).value) == Some(IntVal(i + Atoi(rhs.text)));
    IntPlusIntText(d, i, rhs, target, st);
  }

  /** A number and a string: both report the unsupported `+`. */
  lemma MixedPlusLiteral(d: Dialect, v: Value, rhs: UnaryExpr, target: string, st: State)
    requires IsBasic(v) && LiteralValue(rhs).Some? && IsBasic(LiteralValue(rhs).value)
    requires Mixes(TypeOf(v), TypeOf(LiteralValue(rhs).value))
    ensures AddLiteral(d, v, rhs, target, st) == PlusOutcome(d, st, target, PythonPlus(v, LiteralValue(rhs).value))
  {
    assert PythonPlus(v, LiteralValue(rhs).value) == None;
  }

  /** Two strings are concatenated, the variable's text first. */
  lemma StrPlusStrText(d: Dialect, s: string, rhs: UnaryExpr, target: string, st: State)
    requires rhs.kind == StrLiteral
    ensures AddLiteral(d, StrVal(s), rhs, target, st) == PlusOutcome(d, st, target, PythonPlus(StrVal(s), LiteralValue(rhs).value))
  {
    assert PythonPlus(StrVal(s), LiteralValue(rhs).value) == Some(StrVal(s + rhs.text));
    assert AddLiteral(d, StrVal(s), rhs, target, st) == SumWithLiteral(StrVal(s), rhs, target, st);
  }

  lemma IntPlusIntText(d: Dialect, i: int, rhs: UnaryExpr, target: string, st: State)
    requires rhs.kind == IntLiteral && IsInt32(Atoi(rhs.text))
    ensures AddLiteral(d, IntVal(i), rhs, target, st) == StoreInt(st, target, i + Atoi(rhs.text))
  {
    assert AddLiteral(d, IntVal(i), rhs, target, st) == SumWithLiteral(IntVal(i), rhs, target, st);
    IntPlusIntLiteral(i, rhs, target, st);
  }

  lemma IntPlusReal(d: Dialect, i: int, rhs: UnaryExpr, target: string, st: State)
    requires rhs.kind == RealLiteral && IsInt32(i)
    ensures AddLiteral(d, IntVal(i), rhs, target, st) ==
      PlusOutcome(d, st, target, PythonPlus(IntVal(i), RealVal(Strtod(rhs.text))))
  {
    var y := Strtod(rhs.text);
    var z := i as real + y;
    var p := PythonPlus(IntVal(i), RealVal(y));
    assert p == Some(RealVal(z));
    assert PlusOutcome(d, st, target, p) == Store(st, target, RealVal(z));
    assert SumWithLiteral(IntVal(i), rhs, target, st) == Store(st, target, RealVal(z));
    assert AddLiteral(d, IntVal(i), rhs, target, st) == SumWithLiteral(IntVal(i), rhs, target, st);
  }

  lemma RealPlusNumber(d: Dialect, x: real, rhs: UnaryExpr, target: string, st: State)
    requires rhs.kind == RealLiteral || rhs.kind == IntLiteral
    requires rhs.kind == IntLiteral ==> IsIntegerText(rhs.text) && IsInt32(Atoi(rhs.text))
    ensures AddLiteral(d, RealVal(x), rhs, target, st) ==
      PlusOutcome(d, st, target, PythonPlus(RealVal(x), LiteralValue(rhs).value))
  {
    RealPlusLiteralText(d, x, rhs, target, st);
    RealPlusLiteralValue(x, rhs);
    RealOutcome(d, st, target, x + Strtod(rhs.text));
  }

  /** Python adds a number literal to a real as the value strtod reads from
      the literal's text. */
  lemma RealPlusLiteralValue(x: real, rhs: UnaryExpr)
    requires rhs.kind == RealLiteral || rhs.kind == IntLiteral
    requires rhs.kind == IntLiteral ==> IsIntegerText(rhs.text) && IsInt32(Atoi(rhs.text))
    ensures PythonPlus(RealVal(x), LiteralValue(rhs).value) == Some(RealVal(x + Strtod(rhs.text)))
  {
    if rhs.kind == IntLiteral {
      StrtodOfIntegerText(rhs.text);
    }
  }

  /** With a real variable, binary_plus_one_var passes any number literal's
      text through strtod. */
  lemma RealPlusLiteralText(d: Dialect, x: real, rhs: UnaryExpr, target: string, st: State)
    requires rhs.kind == RealLiteral || rhs.kind == IntLiteral
    ensures AddLiteral(d, RealVal(x), rhs, target, st) == Store(st, target, RealVal(x + Strtod(rhs.text)))
  {
    assert AddLiteral(d, RealVal(x), rhs, target, st) == SumWithLiteral(RealVal(x), rhs, target, st);
    RealPlusLiteral(x, rhs, target, st);
  }

  /** binary_plus_two_var computes Python's `+` of the two cells, except in
      main.cpp for a real on the left and an int on the right. */
  lemma TwoVarAgreesWithPython(d: Dialect, lhs: UnaryExpr, rhs: UnaryExpr, target: string, st: State)
    requires Lookup(st.cells, lhs.text).Some? && IsBasic(Lookup(st.cells, lhs.text).value)
    requires Lookup(st.cells, rhs.text).Some? && IsBasic(Lookup(st.cells, rhs.text).value)
    requires !(d == Cpp && Lookup(st.cells, lhs.text).value.RealVal? && Lookup(st.cells, rhs.text).value.IntVal?)
    ensures TwoVar(d, lhs, rhs, target, st) ==
      PlusOutcome(d, st, target, PythonPlus(Lookup(st.cells, lhs.text).value, Lookup(st.cells, rhs.text).value))
  {
    var a := Lookup(st.cells, lhs.text).value;
    var b := Lookup(st.cells, rhs.text).value;
    if Mixes(TypeOf(a), TypeOf(b)) {
      assert TwoVar(d, lhs, rhs, target, st) == Report(d, st, UnsupportedPlus);
    } else {
      assert TwoVar(d, lhs, rhs, target, st) == SumOfCells(d, a, b, target, st);
      SumOfCellsAgreesWithPython(d, a, b, target, st);
    }
  }

  lemma SumOfCellsAgreesWithPython(d: Dialect, a: Value, b: Value, target: string, st: State)
    requires IsBasic(a) && IsBasic(b) && !Mixes(TypeOf(a), TypeOf(b))
    requires !(d == Cpp && a.RealVal? && b.IntVal?)
    ensures SumOfCells(d, a, b, target, st) == PlusOutcome(d, st, target, PythonPlus(a, b))
  {
    var p := PythonPlus(a, b);
    if a.IntVal? && b.IntVal? {
      assert p == Some(IntVal(a.i + b.i));
      IntPlusIntCell(d, a.i, b.i, target, st);
    } else if a.StrVal? || b.StrVal? {
      assert a.StrVal? && b.StrVal?;
      assert p == Some(StrVal(a.s + b.s));
      StrPlusStrCell(d, a.s, b.s, target, st);
    } else {
      var z := AsReal(a) + AsReal(b);
      assert p == Some(RealVal(z));
      RealOutcome(d, st, target, z);
      RealSumOfCells(d, a, b, target, st, z);
    }
  }

  lemma RealOutcome(d: Dialect, st: State, target: string, z: real)
    ensures PlusOutcome(d, st, target, Some(RealVal(z))) == Store(st, target, RealVal(z))
  {
  }

  /** The real-valued branches of binary_plus_two_var, each adding in its
      own order. */
  lemma RealSumOfCells(d: Dialect, a: Value, b: Value, target: string, st: State, z: real)
    requires (a.IntVal? || a.RealVal?) && (b.IntVal? || b.RealVal?) && !(a.IntVal? && b.IntVal?)
    requires !(d == Cpp && a.RealVal? && b.IntVal?)
    requires z == AsReal(a) + AsReal(b)
    ensures SumOfCells(d, a, b, target, st) == Store(st, target, RealVal(z))
  {
    if a.IntVal? {
      assert a == IntVal(a.i) && b == RealVal(b.d);
      IntPlusRealCell(d, a.i, b.d, target, st, z);
    } else if b.IntVal? {
      assert a == RealVal(a.d) && b == IntVal(b.i) && d == C;
      RealPlusIntCell(a.d, b.i, target, st, z);
    } else {
      assert a == RealVal(a.d) && b == RealVal(b.d);
      RealPlusRealCell(d, a.d, b.d, target, st, z);
    }
  }

  lemma IntPlusIntCell(d: Dialect, i: int, j: int, target: string, st: State)
    ensures SumOfCells(d, IntVal(i), IntVal(j), target, st) == StoreInt(st, target, i + j)
  {
  }

  lemma StrPlusStrCell(d: Dialect, s: string, t: string, target: string, st: State)
    ensures SumOfCells(d, StrVal(s), StrVal(t), target, st) == Store(st, target, StrVal(s + t))
  {
  }

  lemma IntPlusRealCell(d: Dialect, i: int, x: real, target: string, st: State, z: real)
    requires z == i as real + x
    ensures SumOfCells(d, IntVal(i), RealVal(x), target, st) == Store(st, target, RealVal(z))
  {
  }

  lemma RealPlusIntCell(x: real, i: int, target: string, st: State, z: real)
    requires z == x + i as real
    ensures SumOfCells(C, RealVal(x), IntVal(i), target, st) == Store(st, target, RealVal(z))
  {
    assert i as real + x == x + i as real;
  }

  lemma RealPlusRealCell(d: Dialect, x: real, y: real, target: string, st: State, z: real)
    requires z == x + y
    ensures SumOfCells(d, RealVal(x), RealVal(y), target, st) == Store(st, target, RealVal(z))
  {
    assert y + x == x + y;
  }

  /** main.cpp's merged mixed branch reads the int member of the left cell
      and the double member of the right one, whatever their types: with a
      real on the left both reads are of members the cells do not hold.
      main.c's separate branch for that case gives the sum. */
  lemma MixedSumAsWritten(x: real, i: int, target: string, st: State)
    ensures SumOfCells(Cpp, RealVal(x), IntVal(i), target, st) == Halt(st, UndefinedBehaviour(MixedMemberRead))
    ensures SumOfCells(C, RealVal(x), IntVal(i), target, st) == Store(st, target, RealVal(x + i as real))
  {
  }

  // ---------------------------------------------------------------------
  // int() against print

  /** int() of the text that printing an int produces gives that int back,
      in both executors. */
  lemma IntOfPrintedText(d: Dialect, target: string, n: int, st: State)
    requires IsInt32(n)
    ensures IntOfText(d, target, IntText(n), st) == Store(st, target, IntVal(n))
  {
    IntTextRoundTrip(n);
    if n == 0 {
      assert IntText(0) == "0";
    }
  }

  /** The program `x = <int literal>` then `print(x)`: it prints the %d text
      of the value stored, one line on stdout and nothing else, and atoi
      reads that text back as the value; so `x = 5` then `print(x)` prints
      "5". */
  lemma PrintAfterIntAssignment(d: Dialect, x: string, literal: string, st: State, fuel: nat)
    requires IsInt32(Atoi(literal))
    ensures var r := ExecBlock(d, [Assignment(x, Unary(UnaryExpr(IntLiteral, literal))),
                                   FunctionCall("print", Unary(UnaryExpr(VariableAccess, x)))], st, fuel);
      && r.status == Success
      && Lookup(r.state.cells, x) == Some(IntVal(Atoi(literal)))
      && r.state.io.input == st.io.input
      && r.state.io.output == st.io.output + [Text(Stdout, IntText(Atoi(literal)) + "\n")]
      && Atoi(IntText(Atoi(literal))) == Atoi(literal)
  {
    var n := Atoi(literal);
    var assign := Assignment(x, Unary(UnaryExpr(IntLiteral, literal)));
    var show := FunctionCall("print", Unary(UnaryExpr(VariableAccess, x)));
    var r1 := ExecStmt(d, assign, st, fuel);
    assert r1 == Store(st, x, IntVal(n));
    var r2 := ExecStmt(d, show, r1.state, fuel);
    assert r2 == CallStmt(d, "print", Unary(UnaryExpr(VariableAccess, x)), r1.state);
    assert [assign, show][1..][1..] == [];
    assert ExecBlock(d, [assign, show], st, fuel) == r2;
    IntTextRoundTrip(n);
  }

  /** Printing what `x = 5` stored gives the line "5". */
  lemma PrintFive(d: Dialect, st: State, fuel: nat)
    ensures var r := ExecBlock(d, [Assignment("x", Unary(UnaryExpr(IntLiteral, "5"))),
                                   FunctionCall("print", Unary(UnaryExpr(VariableAccess, "x")))], st, fuel);
      r.state.io.output == st.io.output + [Text(Stdout, "5\n")]
  {
    assert Atoi("5") == 5;
    assert NatText(5) == [DigitChar(5)] == "5";
    PrintAfterIntAssignment(d, "x", "5", st, fuel);
    assert IntText(5) + "\n" == "5\n";
  }

  /** main.c's int() reads the empty string as 0, since all_zeros holds
      for it; main.cpp's std::stoi rejects it. */
  lemma IntOfEmptyText(target: string, st: State)
    ensures IntOfText(C, target, "", st) == Store(st, target, IntVal(0))
    ensures IntOfText(Cpp, target, "", st) == Halt(st, UncaughtException(InvalidArgumentError))
  {
    assert SpaceEnd("", 0) == 0;
    assert ScanIntPrefix("") == IntPrefix(false, "");
  }

  // ---------------------------------------------------------------------
  // execute

  /** Running two statement lists one after the other is running the first,
      and the second only if the first succeeded. */
  lemma {:induction false} BlockConcat(d: Dialect, b1: seq<Stmt>, b2: seq<Stmt>, st: State, fuel: nat)
    ensures ExecBlock(d, b1 + b2, st, fuel) ==
      var r := ExecBlock(d, b1, st, fuel);
      if r.status != Success then r else ExecBlock(d, b2, r.state, fuel)
    decreases |b1|
  {
    if b1 == [] {
      assert b1 + b2 == b2;
    } else {
      assert (b1 + b2)[0] == b1[0];
      assert (b1 + b2)[1..] == b1[1..] + b2;
      var r1 := ExecStmt(d, b1[0], st, fuel);
      if r1.status == Success {
        BlockConcat(d, b1[1..], b2, r1.state, fuel);
      }
    }
  }

  /** In main.c `pass` leaves the statement's success flag false, so the
      program stops there with the state unchanged. */
  lemma PassStopsAsWritten(rest: seq<Stmt>, st: State, fuel: nat)
    ensures ExecBlock(C, [Pass] + rest, st, fuel) == Step(Failure, st)
  {
    assert ([Pass] + rest)[0] == Pass;
  }

  /** main.cpp's `pass` does nothing and execution goes on with the next
      statement, as Python's does. */
  lemma PassIsNoOp(rest: seq<Stmt>, st: State, fuel: nat)
    ensures ExecBlock(Cpp, [Pass] + rest, st, fuel) == ExecBlock(Cpp, rest, st, fuel)
  {
    assert ([Pass] + rest)[0] == Pass;
    assert ([Pass] + rest)[1..] == rest;
  }

  // ---------------------------------------------------------------------
  // Fuel

  /** Fuel only bounds the model: a run that did not run out of fuel ends
      the same way with any larger supply. */
  lemma {:induction false} BlockFuel(d: Dialect, b: seq<Stmt>, st: State, fuel: nat, more: nat)
    requires fuel <= more
    ensures ExecBlock(d, b, st, fuel).status != OutOfFuel ==> ExecBlock(d, b, st, more) == ExecBlock(d, b, st, fuel)
    decreases fuel, BlockSize(b)
  {
    if b != [] {
      var r1 := ExecStmt(d, b[0], st, fuel);
      StmtSmallerThanBlock(b, 0);
      StmtFuel(d, b[0], st, fuel, more);
      if r1.status == Success {
        assert BlockSize(b[1..]) < BlockSize(b);
        BlockFuel(d, b[1..], r1.state, fuel, more);
      }
    }
  }

  lemma {:induction false} StmtFuel(d: Dialect, s: Stmt, st: State, fuel: nat, more: nat)
    requires fuel <= more
    ensures ExecStmt(d, s, st, fuel).status != OutOfFuel ==> ExecStmt(d, s, st, more) == ExecStmt(d, s, st, fuel)
    decreases fuel, StmtSize(s)
  {
    if s.WhileLoop? {
      WhileFuel(d, s.condition, s.body, st, fuel, more);
    }
  }

  lemma {:induction false} WhileFuel(d: Dialect, cond: Expr, body: seq<Stmt>, st: State, fuel: nat, more: nat)
    requires fuel <= more
    ensures ExecWhile(d, cond, body, st, fuel).status != OutOfFuel ==>
      ExecWhile(d, cond, body, st, more) == ExecWhile(d, cond, body, st, fuel)
    decreases fuel, BlockSize(body)
  {
    if cond.Binary? {
      var name := cond.lhs.text;
      match Lookup(st.cells, name)
      case None =>
      case Some(v) =>
        match EntryGuard(cond.rhs, v)
        case None =>
        case Some(g) =>
          if !(g.IntGuard? && !IsInt32(g.n)) {
            LoopFuel(d, name, g, body, st, fuel, more);
          }
    }
  }

  lemma {:induction false} LoopFuel(d: Dialect, name: string, g: Guard, body: seq<Stmt>, st: State, fuel: nat, more: nat)
    requires fuel <= more
    ensures ExecLoop(d, name, g, body, st, fuel).status != OutOfFuel ==>
      ExecLoop(d, name, g, body, st, more) == ExecLoop(d, name, g, body, st, fuel)
    decreases fuel, 0
  {
    if ExecLoop(d, name, g, body, st, fuel).status != OutOfFuel {
      if Differs(g, Lookup(st.cells, name)) != Some(true) {
        LoopFuelStops(d, name, g, body, st, fuel, more);
      } else {
        var f, m := LoopFuelPositive(d, name, g, body, st, fuel, more);
        LoopFuelRound(d, name, g, body, st, f, m);
      }
    }
  }

  /** A loop whose value no longer differs (or cannot be compared) ends the
      same with any fuel beyond the first round. */
  lemma LoopFuelStops(d: Dialect, name: string, g: Guard, body: seq<Stmt>, st: State, fuel: nat, more: nat)
    requires fuel <= more && ExecLoop(d, name, g, body, st, fuel).status != OutOfFuel
    requires Differs(g, Lookup(st.cells, name)) != Some(true)
    ensures ExecLoop(d, name, g, body, st, more) == ExecLoop(d, name, g, body, st, fuel)
  {
  }

  /** A loop that did not run out of fuel had some: `f + 1`, and `m + 1`
      is the larger supply. */
  lemma LoopFuelPositive(d: Dialect, name: string, g: Guard, body: seq<Stmt>, st: State, fuel: nat, more: nat)
      returns (f: nat, m: nat)
    requires fuel <= more && ExecLoop(d, name, g, body, st, fuel).status != OutOfFuel
    ensures f <= m && fuel == f + 1 && more == m + 1
  {
    f, m := fuel - 1, more - 1;
  }

  /** A loop that enters a round and does not run out of fuel had fuel
      `f` for the round's body, and the body did not run out either. */
  lemma LoopBodyEnds(d: Dialect, name: string, g: Guard, body: seq<Stmt>, st: State, f: nat)
    requires Differs(g, Lookup(st.cells, name)) == Some(true)
    requires ExecLoop(d, name, g, body, st, f + 1).status != OutOfFuel
    ensures ExecBlock(d, body, st, f).status != OutOfFuel
  {
  }

  /** A loop that enters a round and did not run out of fuel `f + 1` ends
      the same with more fuel `m + 1`: after a failed round both end with its result, and
      after a successful one both go on from the state it leaves. */
  lemma LoopFuelRound(d: Dialect, name: string, g: Guard, body: seq<Stmt>, st: State, f: nat, m: nat)
    requires f <= m && Differs(g, Lookup(st.cells, name)) == Some(true)
    requires ExecLoop(d, name, g, body, st, f + 1).status != OutOfFuel
    ensures ExecLoop(d, name, g, body, st, m + 1) == ExecLoop(d, name, g, body, st, f + 1)
    decreases f, BlockSize(body) + 2
  {
    var r1 := LoopRound(d, name, g, body, st, f);
    var r2 := LoopRoundMore(d, name, g, body, st, f, m);
    if r1.status == Success {
      LoopFuel(d, name, g, body, r1.state, f, m);
    }
  }

  /** With more fuel `m + 1`, the loop's round runs its body to the result it
      has with fuel `f + 1`. */
  lemma LoopRoundMore(d: Dialect, name: string, g: Guard, body: seq<Stmt>, st: State, f: nat, m: nat)
      returns (r1: Step)
    requires f <= m && Differs(g, Lookup(st.cells, name)) == Some(true)
    requires ExecLoop(d, name, g, body, st, f + 1).status != OutOfFuel
    ensures r1 == ExecBlock(d, body, st, f)
    ensures r1.status != Success ==> ExecLoop(d, name, g, body, st, m + 1) == r1
    ensures r1.status == Success ==> ExecLoop(d, name, g, body, st, m + 1) == ExecLoop(d, name, g, body, r1.state, m)
    decreases f, BlockSize(body) + 1
  {
    LoopBodyEnds(d, name, g, body, st, f);
    BlockFuel(d, body, st, f, m);
    r1 := ExecBlock(d, body, st, f);
    var r2 := LoopRound(d, name, g, body, st, m);
  }

  /** One round of a loop whose value differs, with fuel `f` for its body:
      the body's result, which is the loop's when it fails and otherwise
      leads to the next round. */
  lemma LoopRound(d: Dialect, name: string, g: Guard, body: seq<Stmt>, st: State, f: nat)
      returns (r1: Step)
    requires Differs(g, Lookup(st.cells, name)) == Some(true)
    ensures r1 == ExecBlock(d, body, st, f)
    ensures r1.status != Success ==> ExecLoop(d, name, g, body, st, f + 1) == r1
    ensures r1.status == Success ==> ExecLoop(d, name, g, body, st, f + 1) == ExecLoop(d, name, g, body, r1.state, f)
  {
    r1 := ExecBlock(d, body, st, f);
  }

}
