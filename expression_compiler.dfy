/**
 * The expression compiler of kunjs (src/kunjs/compiler/expression_compiler.cc):
 * a visitor that lowers each expression node to an LLVM value.  Only
 * literals and the additive and multiplicative levels produce real values;
 * every other level forwards its first operand, and calls, member
 * modifiers, instantiations, function expressions, `this` and identifiers
 * all lower to the i8* null.
 */
module ExpressionCompiler {
  import opened Wrappers
  import opened Ast
  import opened IR

  // ---------------------------------------------------------------- arithmetic with promotion

  /** Either operand is a double, so the operation is done in floating point. */
  predicate Promotes(lhs: Value, rhs: Value) {
    TypeOf(lhs) == Double || TypeOf(rhs) == Double
  }

  /**
   * The shape shared by CreateAddInstruction, CreateSubInstruction,
   * CreateMulInstruction, CreateDivInstruction and CreateRemInstruction:
   * when either operand is a double, both are converted with SIToFP and the
   * floating-point instruction is built (named `<stem>_double`); otherwise
   * the integer instruction is built (named `<stem>_int`).
   */
  function Arithmetic(intOp: Opcode, floatOp: Opcode, stem: string, lhs: Value, rhs: Value): (r: Value)
    requires IsFloatOpcode(floatOp) && !IsFloatOpcode(intOp)
    ensures TypeOf(r) == (if Promotes(lhs, rhs) then Double else TypeOf(lhs))
    ensures Promotes(lhs, rhs) ==>
              r.BinaryOperator? && r.opcode == floatOp && TypeOf(r.lhs) == Double && TypeOf(r.rhs) == Double
              && (TypeOf(lhs) == Double ==> r.lhs == lhs) && (TypeOf(rhs) == Double ==> r.rhs == rhs)
    ensures !Promotes(lhs, rhs) ==> r.BinaryOperator? && r.opcode == intOp && r.lhs == lhs && r.rhs == rhs
  {
    if Promotes(lhs, rhs) then BinaryOperator(floatOp, ToDouble(lhs), ToDouble(rhs), stem + "_double")
    else BinaryOperator(intOp, lhs, rhs, stem + "_int")
  }

  /** CreateAddInstruction: `fadd` named "add_double" on promoted operands, otherwise `add` named "add_int". */
  function CreateAdd(lhs: Value, rhs: Value): (r: Value)
    ensures Promotes(lhs, rhs) ==> r == BinaryOperator(FAdd, ToDouble(lhs), ToDouble(rhs), "add_double")
    ensures !Promotes(lhs, rhs) ==> r == BinaryOperator(Add, lhs, rhs, "add_int")
  {
    Arithmetic(Add, FAdd, "add", lhs, rhs)
  }

  /** CreateSubInstruction: `fsub` named "sub_double" or `sub` named "sub_int". */
  function CreateSub(lhs: Value, rhs: Value): (r: Value)
    ensures Promotes(lhs, rhs) ==> r == BinaryOperator(FSub, ToDouble(lhs), ToDouble(rhs), "sub_double")
    ensures !Promotes(lhs, rhs) ==> r == BinaryOperator(Sub, lhs, rhs, "sub_int")
  {
    Arithmetic(Sub, FSub, "sub", lhs, rhs)
  }

  /** CreateMulInstruction: `fmul` named "mul_double" or `mul` named "mul_int". */
  function CreateMul(lhs: Value, rhs: Value): (r: Value)
    ensures Promotes(lhs, rhs) ==> r == BinaryOperator(FMul, ToDouble(lhs), ToDouble(rhs), "mul_double")
    ensures !Promotes(lhs, rhs) ==> r == BinaryOperator(Mul, lhs, rhs, "mul_int")
  {
    Arithmetic(Mul, FMul, "mul", lhs, rhs)
  }

  /** CreateDivInstruction: `fdiv` named "div_double" or `sdiv` named "div_int". */
  function CreateDiv(lhs: Value, rhs: Value): (r: Value)
    ensures Promotes(lhs, rhs) ==> r == BinaryOperator(FDiv, ToDouble(lhs), ToDouble(rhs), "div_double")
    ensures !Promotes(lhs, rhs) ==> r == BinaryOperator(SDiv, lhs, rhs, "div_int")
  {
    Arithmetic(SDiv, FDiv, "div", lhs, rhs)
  }

  /** CreateRemInstruction: `frem` named "rem_double" or `srem` named "rem_int". */
  function CreateRem(lhs: Value, rhs: Value): (r: Value)
    ensures Promotes(lhs, rhs) ==> r == BinaryOperator(FRem, ToDouble(lhs), ToDouble(rhs), "rem_double")
    ensures !Promotes(lhs, rhs) ==> r == BinaryOperator(SRem, lhs, rhs, "rem_int")
  {
    Arithmetic(SRem, FRem, "rem", lhs, rhs)
  }

  /** A value of double type or of an integer type: what `sitofp` or a floating-point opcode can take. */
  predicate IsNumberType(t: Type) { t == Double || IsIntegerType(t) }

  /**
   * The instruction the arithmetic shape builds is one LLVM accepts exactly
   * when, after promotion, both operands are numbers, or, without
   * promotion, both have the same integer type.  An identifier, `this`, a
   * call or a string operand (an i8* null or metadata) therefore gives a
   * tree the builder rejects.
   */
  lemma ArithmeticWellTyped(intOp: Opcode, floatOp: Opcode, stem: string, lhs: Value, rhs: Value)
    requires IsFloatOpcode(floatOp) && !IsFloatOpcode(intOp)
    requires WellTyped(lhs) && WellTyped(rhs)
    ensures WellTyped(Arithmetic(intOp, floatOp, stem, lhs, rhs)) <==>
              if Promotes(lhs, rhs) then IsNumberType(TypeOf(lhs)) && IsNumberType(TypeOf(rhs))
              else TypeOf(lhs) == TypeOf(rhs) && IsIntegerType(TypeOf(lhs))
  {
  }

  /** One iteration of the additive loop: "+" adds, "-" subtracts, any other operator is skipped. */
  function AdditiveStep(acc: Value, op: string, rhs: Value): (r: Value)
    ensures op != "+" && op != "-" ==> r == acc
  {
    if op == "+" then CreateAdd(acc, rhs)
    else if op == "-" then CreateSub(acc, rhs)
    else acc
  }

  /** One iteration of the multiplicative loop: "*", "/" and "%"; any other operator is skipped. */
  function MultiplicativeStep(acc: Value, op: string, rhs: Value): (r: Value)
    ensures op != "*" && op != "/" && op != "%" ==> r == acc
  {
    if op == "*" then CreateMul(acc, rhs)
    else if op == "/" then CreateDiv(acc, rhs)
    else if op == "%" then CreateRem(acc, rhs)
    else acc
  }

  // ---------------------------------------------------------------- the visitor

  // Each level above the additive one compiles only its first operand, so
  // its value is that of the additive expression reached through first
  // operands: the targets, the `? :` clauses and every logical, bitwise,
  // equality, relational and shift operation are dropped.

  /** An assignment expression: the targets are not compiled, only the right-hand side. */
  function LowerAssignment(e: AssignmentExpression): (r: Value)
    ensures r == LowerAdditive(e.rhs.lhs.lhs.lhs.lhs.lhs.lhs.lhs.lhs.lhs)
    decreases e, 10
  {
    LowerConditional(e.rhs)
  }

  /** A conditional expression: the `? :` clauses are not compiled, only the condition. */
  function LowerConditional(e: ConditionalExpression): (r: Value)
    ensures r == LowerAdditive(e.lhs.lhs.lhs.lhs.lhs.lhs.lhs.lhs.lhs)
    decreases e, 10
  {
    LowerLogicalOr(e.lhs)
  }

  function LowerLogicalOr(e: LogicalOrExpression): (r: Value)
    ensures r == LowerAdditive(e.lhs.lhs.lhs.lhs.lhs.lhs.lhs.lhs)
    decreases e, 10
  {
    LowerLogicalAnd(e.lhs)
  }

  function LowerLogicalAnd(e: LogicalAndExpression): (r: Value)
    ensures r == LowerAdditive(e.lhs.lhs.lhs.lhs.lhs.lhs.lhs)
    decreases e, 10
  {
    LowerBitwiseOr(e.lhs)
  }

  function LowerBitwiseOr(e: BitwiseOrExpression): (r: Value)
    ensures r == LowerAdditive(e.lhs.lhs.lhs.lhs.lhs.lhs)
    decreases e, 10
  {
    LowerBitwiseXor(e.lhs)
  }

  function LowerBitwiseXor(e: BitwiseXorExpression): (r: Value)
    ensures r == LowerAdditive(e.lhs.lhs.lhs.lhs.lhs)
    decreases e, 10
  {
    LowerBitwiseAnd(e.lhs)
  }

  function LowerBitwiseAnd(e: BitwiseAndExpression): (r: Value)
    ensures r == LowerAdditive(e.lhs.lhs.lhs.lhs)
    decreases e, 10
  {
    LowerEquality(e.lhs)
  }

  function LowerEquality(e: EqualityExpression): (r: Value)
    ensures r == LowerAdditive(e.lhs.lhs.lhs)
    decreases e, 10
  {
    LowerRelational(e.lhs)
  }

  function LowerRelational(e: RelationalExpression): (r: Value)
    ensures r == LowerAdditive(e.lhs.lhs)
    decreases e, 10
  {
    LowerShift(e.lhs)
  }

  function LowerShift(e: ShiftExpression): (r: Value)
    ensures r == LowerAdditive(e.lhs)
    decreases e, 10
  {
    LowerAdditive(e.lhs)
  }

  /** The additive loop after its first `n` operations: a left fold from the first operand. */
  function AdditivePrefix(e: AdditiveExpression, n: nat): Value
    requires n <= |e.operations|
    decreases e, n
  {
    if n == 0 then LowerMultiplicative(e.lhs)
    else
      var operation := e.operations[n - 1];
      AdditiveStep(AdditivePrefix(e, n - 1), operation.op, LowerMultiplicative(operation.rhs))
  }

  function LowerAdditive(e: AdditiveExpression): (r: Value)
    ensures e.operations == [] ==> r == LowerMultiplicative(e.lhs)
    decreases e, |e.operations| + 1
  {
    AdditivePrefix(e, |e.operations|)
  }

  /** The multiplicative loop after its first `n` operations. */
  function MultiplicativePrefix(e: MultiplicativeExpression, n: nat): Value
    requires n <= |e.operations|
    decreases e, n
  {
    if n == 0 then LowerUnary(e.lhs)
    else
      var operation := e.operations[n - 1];
      MultiplicativeStep(MultiplicativePrefix(e, n - 1), operation.op, LowerUnary(operation.rhs))
  }

  function LowerMultiplicative(e: MultiplicativeExpression): (r: Value)
    ensures e.operations == [] ==> r == LowerUnary(e.lhs)
    decreases e, |e.operations| + 1
  {
    MultiplicativePrefix(e, |e.operations|)
  }

  /** A unary expression: the operators are not compiled. */
  function LowerUnary(e: UnaryExpression): (r: Value)
    ensures e.rhs.lhs.Call? ==> r == NullI8Ptr
    ensures e.rhs.lhs.New? ==> r == LowerMember(e.rhs.lhs.newExpression.member)
    decreases e, 10
  {
    LowerPostfix(e.rhs)
  }

  /** A postfix expression: the operator is not compiled. */
  function LowerPostfix(e: PostfixExpression): (r: Value)
    ensures e.lhs.Call? ==> r == NullI8Ptr
    ensures e.lhs.New? ==> r == LowerMember(e.lhs.newExpression.member)
    decreases e, 10
  {
    LowerLhs(e.lhs)
  }

  /** A call compiles to the i8* null; a `new` expression to its member expression, the operators dropped. */
  function LowerLhs(e: LhsExpression): (r: Value)
    ensures e.Call? ==> r == NullI8Ptr
    ensures e.New? ==> r == LowerMember(e.newExpression.member)
    decreases e, 10
  {
    match e
    case Call(_) => NullI8Ptr
    case New(n) => LowerMember(n.member)
  }

  /** Instantiations and function expressions compile to the i8* null; modifiers are dropped. */
  function LowerMember(e: MemberExpression): (r: Value)
    ensures e.Instantiation? || e.member.FunctionMember? ==> r == NullI8Ptr
    ensures e.MemberAccess? && e.member.PrimaryMember? ==> r == LowerPrimary(e.member.primary)
    decreases e, 10
  {
    match e
    case MemberAccess(member, _) => LowerMemberOptions(member)
    case Instantiation(_, _) => NullI8Ptr
  }

  function LowerMemberOptions(e: MemberOptions): (r: Value)
    ensures e.FunctionMember? ==> r == NullI8Ptr
    ensures e.PrimaryMember? ==> r == LowerPrimary(e.primary)
    decreases e, 10
  {
    match e
    case PrimaryMember(p) => LowerPrimary(p)
    case FunctionMember(_) => NullI8Ptr
  }

  /** A member modifier (index or property): not compiled. */
  function LowerMemberModifier(m: MemberModifier): (r: Value)
    ensures TypeOf(r) == Pointer(I8) && EvalInt(r).None?
  {
    NullI8Ptr
  }

  /** The primary expression compiler; a parenthesised expression goes through the statement compiler. */
  function LowerPrimary(p: PrimaryExpression): (r: Value)
    ensures p.This? || p.Identifier? ==> r == NullI8Ptr
    ensures p.LiteralValue? ==> r == LowerLiteral(p.literal)
    ensures p.Grouped? ==> r == LowerItems(p.items)
    decreases p, 10
  {
    match p
    case This => NullI8Ptr
    case Identifier(_) => NullI8Ptr
    case LiteralValue(l) => LowerLiteral(l)
    case Grouped(items) => LowerItems(items)
  }

  /**
   * The statement compiler's rule for an expression list
   * (src/kunjs/compiler/statement_compiler.cc:20-27): every item is compiled
   * in turn and the value of the last one is kept.
   */
  function LowerItems(e: Expression): (r: Value)
    ensures r == LowerAssignment(e.Items()[|e.Items()| - 1])
    decreases e, 10
  {
    if e.tail == [] then LowerAssignment(e.head)
    else
      assert e.tail[|e.tail| - 1] in e.tail;
      LowerAssignment(e.tail[|e.tail| - 1])
  }

  /** The literal compiler. */
  function LowerLiteral(l: Literal): (r: Value)
    ensures l.NullLiteral? ==> r == NullI8Ptr
    ensures l.BoolLiteral? ==> TypeOf(r) == I1 && r.ConstantInt? && r.value == (if l.truth then 1 else 0)
    ensures l.NumericLiteral? && l.number.IntNum? ==> TypeOf(r) == I64
    ensures l.NumericLiteral? && l.number.IntNum? && IsI64(l.number.value) ==>
              EvalInt(r) == Some(l.number.value)
    ensures l.NumericLiteral? && l.number.DoubleNum? ==> r == ConstantFP(l.number.spelling)
    ensures l.StringLiteral? ==> r == MDString(l.text)
  {
    match l
    case NullLiteral => NullI8Ptr
    case BoolLiteral(b) => ConstantInt(1, if b then 1 else 0)
    case NumericLiteral(IntNum(n)) => ConstantInt(64, n)
    case NumericLiteral(DoubleNum(spelling)) => ConstantFP(spelling)
    case StringLiteral(text) => MDString(text)
  }

  // ---------------------------------------------------------------- the loops

  /** `operator()(AdditiveExpression)`: the loop over the additive operations. */
  method CompileAdditive(e: AdditiveExpression) returns (result: Value)
    ensures result == LowerAdditive(e)
  {
    result := LowerMultiplicative(e.lhs);
    var i := 0;
    while i < |e.operations|
      invariant 0 <= i <= |e.operations|
      invariant result == AdditivePrefix(e, i)
    {
      var rhs := LowerMultiplicative(e.operations[i].rhs);
      if e.operations[i].op == "+" {
        result := CreateAdd(result, rhs);
      } else if e.operations[i].op == "-" {
        result := CreateSub(result, rhs);
      }
      i := i + 1;
    }
  }

  /** `operator()(MultiplicativeExpression)`: the loop over the multiplicative operations. */
  method CompileMultiplicative(e: MultiplicativeExpression) returns (result: Value)
    ensures result == LowerMultiplicative(e)
  {
    result := LowerUnary(e.lhs);
    var i := 0;
    while i < |e.operations|
      invariant 0 <= i <= |e.operations|
      invariant result == MultiplicativePrefix(e, i)
    {
      var rhs := LowerUnary(e.operations[i].rhs);
      if e.operations[i].op == "*" {
        result := CreateMul(result, rhs);
      } else if e.operations[i].op == "/" {
        result := CreateDiv(result, rhs);
      } else if e.operations[i].op == "%" {
        result := CreateRem(result, rhs);
      }
      i := i + 1;
    }
  }

  // ---------------------------------------------------------------- properties

  /** Some operand among the first `n` additive steps that the loop uses is a double. */
  predicate AdditivePromoted(e: AdditiveExpression, n: nat)
    requires n <= |e.operations|
  {
    || TypeOf(LowerMultiplicative(e.lhs)) == Double
    || exists i :: 0 <= i < n && (e.operations[i].op == "+" || e.operations[i].op == "-")
                   && TypeOf(LowerMultiplicative(e.operations[i].rhs)) == Double
  }

  /**
   * Numeric promotion along the additive loop: the result is a double
   * exactly when the first operand, or the operand of some "+" or "-", is
   * one; otherwise it keeps the first operand's type.
   */
  lemma {:induction false} AdditivePromotion(e: AdditiveExpression, n: nat)
    requires n <= |e.operations|
    ensures TypeOf(AdditivePrefix(e, n)) ==
              if AdditivePromoted(e, n) then Double else TypeOf(LowerMultiplicative(e.lhs))
    decreases n
  {
    if n > 0 {
      AdditivePromotion(e, n - 1);
      var o := e.operations[n - 1];
      if AdditivePromoted(e, n) && !AdditivePromoted(e, n - 1) {
        var i :| 0 <= i < n && (e.operations[i].op == "+" || e.operations[i].op == "-")
                 && TypeOf(LowerMultiplicative(e.operations[i].rhs)) == Double;
        assert i == n - 1;
      }
    }
  }

  /** Some operand among the first `n` multiplicative steps that the loop uses is a double. */
  predicate MultiplicativePromoted(e: MultiplicativeExpression, n: nat)
    requires n <= |e.operations|
  {
    || TypeOf(LowerUnary(e.lhs)) == Double
    || exists i :: 0 <= i < n && (e.operations[i].op == "*" || e.operations[i].op == "/" || e.operations[i].op == "%")
                   && TypeOf(LowerUnary(e.operations[i].rhs)) == Double
  }

  /** Numeric promotion along the multiplicative loop. */
  lemma {:induction false} MultiplicativePromotion(e: MultiplicativeExpression, n: nat)
    requires n <= |e.operations|
    ensures TypeOf(MultiplicativePrefix(e, n)) ==
              if MultiplicativePromoted(e, n) then Double else TypeOf(LowerUnary(e.lhs))
    decreases n
  {
    if n > 0 {
      MultiplicativePromotion(e, n - 1);
      if MultiplicativePromoted(e, n) && !MultiplicativePromoted(e, n - 1) {
        var i :| 0 <= i < n && (e.operations[i].op == "*" || e.operations[i].op == "/" || e.operations[i].op == "%")
                 && TypeOf(LowerUnary(e.operations[i].rhs)) == Double;
        assert i == n - 1;
      }
    }
  }

  /** Integer addition and subtraction compute the 64-bit results of the source operators. */
  lemma IntegerSum(lhs: Value, rhs: Value)
    requires !Promotes(lhs, rhs) && EvalInt(lhs).Some? && EvalInt(rhs).Some?
    ensures EvalInt(CreateAdd(lhs, rhs)) == Some(Wrap64(EvalInt(lhs).value + EvalInt(rhs).value))
    ensures EvalInt(CreateSub(lhs, rhs)) == Some(Wrap64(EvalInt(lhs).value - EvalInt(rhs).value))
  {
    var add := CreateAdd(lhs, rhs);
    assert add.opcode == Add && add.lhs == lhs && add.rhs == rhs;
    var sub := CreateSub(lhs, rhs);
    assert sub.opcode == Sub && sub.lhs == lhs && sub.rhs == rhs;
  }

  /** Integer multiplication wraps the exact product into 64 bits. */
  lemma IntegerProduct(lhs: Value, rhs: Value)
    requires !Promotes(lhs, rhs) && EvalInt(lhs).Some? && EvalInt(rhs).Some?
    ensures EvalInt(CreateMul(lhs, rhs)) == Some(Wrap64(EvalInt(lhs).value * EvalInt(rhs).value))
  {
    var mul := CreateMul(lhs, rhs);
    assert mul.opcode == Mul && mul.lhs == lhs && mul.rhs == rhs;
  }

  /**
   * Integer division and remainder round toward zero, and are undefined for
   * a zero divisor and for the most negative 64-bit value divided by -1.
   */
  lemma IntegerDivision(lhs: Value, rhs: Value)
    requires !Promotes(lhs, rhs) && EvalInt(lhs).Some? && EvalInt(rhs).Some?
    ensures EvalInt(rhs).value == 0 ==> EvalInt(CreateDiv(lhs, rhs)).None? && EvalInt(CreateRem(lhs, rhs)).None?
    ensures EvalInt(lhs).value == -Two63 && EvalInt(rhs).value == -1 ==>
              EvalInt(CreateDiv(lhs, rhs)).None? && EvalInt(CreateRem(lhs, rhs)).None?
    ensures EvalInt(rhs).value != 0 && !(EvalInt(lhs).value == -Two63 && EvalInt(rhs).value == -1) ==>
              EvalInt(CreateDiv(lhs, rhs)) == Some(TruncDiv(EvalInt(lhs).value, EvalInt(rhs).value))
              && EvalInt(CreateRem(lhs, rhs)) == Some(TruncRem(EvalInt(lhs).value, EvalInt(rhs).value))
  {
    var div := CreateDiv(lhs, rhs);
    assert div.opcode == SDiv && div.lhs == lhs && div.rhs == rhs;
    var rem := CreateRem(lhs, rhs);
    assert rem.opcode == SRem && rem.lhs == lhs && rem.rhs == rhs;
  }

  /**
   * The value the source's integer arithmetic gives the first `n` additive
   * steps: 64-bit wrap-around for "+" and "-", other operators skipped,
   * and no value once an operand has none.
   */
  function IntAdditive(e: AdditiveExpression, n: nat): Option<int>
    requires n <= |e.operations|
  {
    if n == 0 then EvalInt(LowerMultiplicative(e.lhs))
    else
      var o := e.operations[n - 1];
      var prev := IntAdditive(e, n - 1);
      if o.op != "+" && o.op != "-" then prev
      else
        match (prev, EvalInt(LowerMultiplicative(o.rhs)))
        case (Some(a), Some(b)) => Some(Wrap64(if o.op == "+" then a + b else a - b))
        case _ => None
  }

  /** Without a double operand, the additive loop computes the 64-bit integer arithmetic above. */
  lemma {:induction false} IntegerAdditiveChain(e: AdditiveExpression, n: nat)
    requires n <= |e.operations| && !AdditivePromoted(e, n)
    ensures EvalInt(AdditivePrefix(e, n)) == IntAdditive(e, n)
    decreases n
  {
    if n > 0 {
      IntegerAdditiveChain(e, n - 1);
      AdditivePromotion(e, n - 1);
      var o := e.operations[n - 1];
      var acc, rhs := AdditivePrefix(e, n - 1), LowerMultiplicative(o.rhs);
      if o.op == "+" || o.op == "-" {
        assert !Promotes(acc, rhs);
        if EvalInt(acc).Some? && EvalInt(rhs).Some? {
          IntegerSum(acc, rhs);
        } else {
          UndefinedOperandPropagates(Add, acc, rhs, "add_int");
          UndefinedOperandPropagates(Sub, acc, rhs, "sub_int");
        }
      }
    }
  }

  /**
   * The value the source's integer arithmetic gives the first `n`
   * multiplicative steps: a wrapped product, quotient and remainder rounded
   * toward zero, none for a zero divisor or the most negative value divided
   * by -1; other operators skipped.
   */
  function IntMultiplicative(e: MultiplicativeExpression, n: nat): Option<int>
    requires n <= |e.operations|
  {
    if n == 0 then EvalInt(LowerUnary(e.lhs))
    else
      var o := e.operations[n - 1];
      var prev := IntMultiplicative(e, n - 1);
      if o.op != "*" && o.op != "/" && o.op != "%" then prev
      else
        match (prev, EvalInt(LowerUnary(o.rhs)))
        case (Some(a), Some(b)) =>
          if o.op == "*" then Some(Wrap64(a * b))
          else if b == 0 || (a == -Two63 && b == -1) then None
          else if o.op == "/" then Some(TruncDiv(a, b))
          else Some(TruncRem(a, b))
        case _ => None
  }

  /** Without a double operand, the multiplicative loop computes the 64-bit integer arithmetic above. */
  lemma {:induction false} IntegerMultiplicativeChain(e: MultiplicativeExpression, n: nat)
    requires n <= |e.operations| && !MultiplicativePromoted(e, n)
    ensures EvalInt(MultiplicativePrefix(e, n)) == IntMultiplicative(e, n)
    decreases n
  {
    if n > 0 {
      IntegerMultiplicativeChain(e, n - 1);
      MultiplicativePromotion(e, n - 1);
      var o := e.operations[n - 1];
      var acc, rhs := MultiplicativePrefix(e, n - 1), LowerUnary(o.rhs);
      if o.op == "*" || o.op == "/" || o.op == "%" {
        assert !Promotes(acc, rhs);
        if EvalInt(acc).Some? && EvalInt(rhs).Some? {
          IntegerProduct(acc, rhs);
          IntegerDivision(acc, rhs);
        } else {
          UndefinedOperandPropagates(Mul, acc, rhs, "mul_int");
          UndefinedOperandPropagates(SDiv, acc, rhs, "div_int");
          UndefinedOperandPropagates(SRem, acc, rhs, "rem_int");
        }
      }
    }
  }

  /**
   * Calls, instantiations, function expressions, `this`, identifiers and
   * member modifiers all compile to the i8* null pointer, which is also the
   * value of the `null` literal.
   */
  lemma PlaceholdersAreNull(call: CallExpression, target: MemberExpression, arguments: seq<AssignmentExpression>,
                            function_: FunctionExpression, modifiers: seq<MemberModifier>, name: string,
                            modifier: MemberModifier)
    ensures LowerLhs(Call(call)) == LowerLiteral(NullLiteral)
    ensures LowerMember(Instantiation(target, arguments)) == LowerLiteral(NullLiteral)
    ensures LowerMember(MemberAccess(FunctionMember(function_), modifiers)) == LowerLiteral(NullLiteral)
    ensures LowerPrimary(This) == LowerLiteral(NullLiteral)
    ensures LowerPrimary(Identifier(name)) == LowerLiteral(NullLiteral)
    ensures LowerMemberModifier(modifier) == LowerLiteral(NullLiteral)
    ensures TypeOf(LowerLiteral(NullLiteral)) == Pointer(I8)
  {
  }

  /**
   * `new` operators and member modifiers are dropped, and a parenthesised
   * expression has the value of its last comma-separated item.
   */
  lemma ForwardingLevels(news: seq<string>, member: MemberExpression, options: MemberOptions,
                         modifiers: seq<MemberModifier>, items: Expression)
    ensures LowerLhs(New(NewExpression(news, member))) == LowerMember(member)
    ensures LowerMember(MemberAccess(options, modifiers)) == LowerMemberOptions(options)
    ensures LowerPrimary(Grouped(items)) == LowerAssignment(items.Items()[|items.Items()| - 1])
  {
  }

  /**
   * Below the multiplicative level only the primary expression is
   * compiled: unary and postfix operators, `new` operators and member
   * modifiers are dropped.
   */
  lemma UnaryLowersThroughPrimary(unary: seq<string>, news: seq<string>, p: PrimaryExpression,
                                  modifiers: seq<MemberModifier>, postfix: Option<string>)
    ensures LowerUnary(UnaryExpression(unary, PostfixExpression(
              New(NewExpression(news, MemberAccess(PrimaryMember(p), modifiers))), postfix)))
            == LowerPrimary(p)
  {
    var member := MemberAccess(PrimaryMember(p), modifiers);
    var lhs := New(NewExpression(news, member));
    assert LowerUnary(UnaryExpression(unary, PostfixExpression(lhs, postfix))) == LowerPostfix(PostfixExpression(lhs, postfix));
    assert LowerPostfix(PostfixExpression(lhs, postfix)) == LowerLhs(lhs);
    assert LowerLhs(lhs) == LowerMember(member);
    assert LowerMember(member) == LowerMemberOptions(PrimaryMember(p));
  }
}
