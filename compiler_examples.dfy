/**
 * The arithmetic cases of test/compiler_test.cc, stated on the expression
 * compiler.  Each AST is the one the grammar builds for the test's input:
 * every operand sits at the bottom of the chain of precedence levels, so
 * the helpers below build those chains.
 */
module CompilerExamples {
  import opened Wrappers
  import opened Ast
  import opened IR
  import opened ExpressionCompiler

  /** A unary expression whose only content is the primary expression `p`. */
  function Operand(p: PrimaryExpression): UnaryExpression {
    UnaryExpression([], PostfixExpression(New(NewExpression([], MemberAccess(PrimaryMember(p), []))), None))
  }

  function IntOperand(n: int): UnaryExpression {
    Operand(LiteralValue(NumericLiteral(IntNum(n))))
  }

  function DoubleOperand(spelling: string): UnaryExpression {
    Operand(LiteralValue(NumericLiteral(DoubleNum(spelling))))
  }

  function Term(u: UnaryExpression): MultiplicativeExpression {
    MultiplicativeExpression(u, [])
  }

  /** The assignment expression that is nothing but the additive expression `a`. */
  function Assignment(a: AdditiveExpression): AssignmentExpression {
    var shift := ShiftExpression(a, []);
    var relational := RelationalExpression(shift, []);
    var equality := EqualityExpression(relational, []);
    var bitAnd := BitwiseAndExpression(equality, []);
    var bitXor := BitwiseXorExpression(bitAnd, []);
    var bitOr := BitwiseOrExpression(bitXor, []);
    var logicalAnd := LogicalAndExpression(bitOr, []);
    var logicalOr := LogicalOrExpression(logicalAnd, []);
    AssignmentExpression([], ConditionalExpression(logicalOr, None))
  }

  /** `( a )` */
  function Parenthesised(a: AdditiveExpression): UnaryExpression {
    Operand(Grouped(Expression(Assignment(a), [])))
  }

  /** `m` compiles to the 64-bit integer `x`. */
  predicate IntegerTerm(m: MultiplicativeExpression, x: int) {
    TypeOf(LowerMultiplicative(m)) == I64 && EvalInt(LowerMultiplicative(m)) == Some(x)
  }

  /** `u` compiles to the 64-bit integer `x`. */
  predicate IntegerUnary(u: UnaryExpression, x: int) {
    TypeOf(LowerUnary(u)) == I64 && EvalInt(LowerUnary(u)) == Some(x)
  }

  /** An integer literal operand compiles to its 64-bit constant. */
  lemma IntOperandLowers(n: int)
    requires IsI64(n)
    ensures IntegerUnary(IntOperand(n), n) && IntegerTerm(Term(IntOperand(n)), n)
  {
    UnaryLowersThroughPrimary([], [], LiteralValue(NumericLiteral(IntNum(n))), [], None);
    assert LowerMultiplicative(Term(IntOperand(n))) == MultiplicativePrefix(Term(IntOperand(n)), 0);
  }

  /** A parenthesised additive expression lowers to the additive expression. */
  lemma ParenthesisedLowers(a: AdditiveExpression)
    ensures LowerUnary(Parenthesised(a)) == LowerAdditive(a)
  {
    UnaryLowersThroughPrimary([], [], Grouped(Expression(Assignment(a), [])), [], None);
  }

  /** The additive loop after `n + 1` operations, when no wrap-around happens. */
  lemma AdditiveIntegerStep(e: AdditiveExpression, n: nat, op: string, term: MultiplicativeExpression, x: int, y: int)
    requires n < |e.operations| && e.operations[n] == AdditiveOperation(op, term)
    requires op == "+" || op == "-"
    requires TypeOf(AdditivePrefix(e, n)) == I64 && EvalInt(AdditivePrefix(e, n)) == Some(x)
    requires IntegerTerm(term, y)
    requires IsI64(if op == "+" then x + y else x - y)
    ensures TypeOf(AdditivePrefix(e, n + 1)) == I64
    ensures EvalInt(AdditivePrefix(e, n + 1)) == Some(if op == "+" then x + y else x - y)
  {
    var acc, rhs := AdditivePrefix(e, n), LowerMultiplicative(term);
    assert AdditivePrefix(e, n + 1) == AdditiveStep(acc, op, rhs);
    IntegerSum(acc, rhs);
    if op == "+" {
      assert AdditiveStep(acc, op, rhs) == CreateAdd(acc, rhs);
      assert Wrap64(x + y) == x + y;
    } else {
      assert AdditiveStep(acc, op, rhs) == CreateSub(acc, rhs);
      assert Wrap64(x - y) == x - y;
    }
  }

  /** The multiplicative loop after `n + 1` operations, for "*" without wrap-around, "/" and "%". */
  lemma MultiplicativeIntegerStep(e: MultiplicativeExpression, n: nat, op: string, factor: UnaryExpression, x: int, y: int)
    requires n < |e.operations| && e.operations[n] == MultiplicativeOperation(op, factor)
    requires op == "*" || op == "/" || op == "%"
    requires TypeOf(MultiplicativePrefix(e, n)) == I64 && EvalInt(MultiplicativePrefix(e, n)) == Some(x)
    requires IntegerUnary(factor, y)
    requires op == "*" ==> IsI64(x * y)
    requires op != "*" ==> y != 0 && !(x == -Two63 && y == -1)
    ensures TypeOf(MultiplicativePrefix(e, n + 1)) == I64
    ensures EvalInt(MultiplicativePrefix(e, n + 1)) ==
              Some(if op == "*" then x * y else if op == "/" then TruncDiv(x, y) else TruncRem(x, y))
  {
    var acc, rhs := MultiplicativePrefix(e, n), LowerUnary(factor);
    assert MultiplicativePrefix(e, n + 1) == MultiplicativeStep(acc, op, rhs);
    if op == "*" {
      IntegerProduct(acc, rhs);
      assert MultiplicativeStep(acc, op, rhs) == CreateMul(acc, rhs);
      assert Wrap64(x * y) == x * y;
    } else if op == "/" {
      IntegerDivision(acc, rhs);
      assert MultiplicativeStep(acc, op, rhs) == CreateDiv(acc, rhs);
    } else {
      IntegerDivision(acc, rhs);
      assert MultiplicativeStep(acc, op, rhs) == CreateRem(acc, rhs);
    }
  }

  /** "1+2;": operands that compile to 1 and 2 give the integer 3. */
  lemma SimpleIntArithmetic(one: MultiplicativeExpression, two: MultiplicativeExpression)
    requires IntegerTerm(one, 1) && IntegerTerm(two, 2)
    ensures EvalInt(LowerItems(Expression(Assignment(
              AdditiveExpression(one, [AdditiveOperation("+", two)])), []))) == Some(3)
  {
    var e := AdditiveExpression(one, [AdditiveOperation("+", two)]);
    AdditiveIntegerStep(e, 0, "+", two, 1, 2);
  }

  /** "1+2-3+7-12;" gives the integer -5: the operations fold from the left. */
  lemma ComplexIntArithmetic(one: MultiplicativeExpression, two: MultiplicativeExpression,
                             three: MultiplicativeExpression, seven: MultiplicativeExpression,
                             twelve: MultiplicativeExpression)
    requires IntegerTerm(one, 1) && IntegerTerm(two, 2) && IntegerTerm(three, 3)
    requires IntegerTerm(seven, 7) && IntegerTerm(twelve, 12)
    ensures EvalInt(LowerAdditive(AdditiveExpression(one,
              [AdditiveOperation("+", two), AdditiveOperation("-", three),
               AdditiveOperation("+", seven), AdditiveOperation("-", twelve)]))) == Some(-5)
  {
    var e := AdditiveExpression(one,
      [AdditiveOperation("+", two), AdditiveOperation("-", three),
       AdditiveOperation("+", seven), AdditiveOperation("-", twelve)]);
    AdditiveIntegerStep(e, 0, "+", two, 1, 2);
    AdditiveIntegerStep(e, 1, "-", three, 3, 3);
    AdditiveIntegerStep(e, 2, "+", seven, 0, 7);
    AdditiveIntegerStep(e, 3, "-", twelve, 7, 12);
  }

  /** "5*9;" gives the integer 45. */
  lemma IntMultiplication(five: UnaryExpression, nine: UnaryExpression)
    requires IntegerUnary(five, 5) && IntegerUnary(nine, 9)
    ensures EvalInt(LowerMultiplicative(
              MultiplicativeExpression(five, [MultiplicativeOperation("*", nine)]))) == Some(45)
  {
    var e := MultiplicativeExpression(five, [MultiplicativeOperation("*", nine)]);
    MultiplicativeIntegerStep(e, 0, "*", nine, 5, 9);
  }

  /** "1/2+2*(3+7) - 12;" gives the integer 8: 1/2 truncates to 0. */
  lemma ComplexIntMultiplication(one: UnaryExpression, two: UnaryExpression,
                                 three: MultiplicativeExpression, seven: MultiplicativeExpression,
                                 twelve: MultiplicativeExpression)
    requires IntegerUnary(one, 1) && IntegerUnary(two, 2)
    requires IntegerTerm(three, 3) && IntegerTerm(seven, 7) && IntegerTerm(twelve, 12)
    ensures EvalInt(LowerAdditive(AdditiveExpression(
              MultiplicativeExpression(one, [MultiplicativeOperation("/", two)]),
              [AdditiveOperation("+", MultiplicativeExpression(two, [MultiplicativeOperation("*",
                 Parenthesised(AdditiveExpression(three, [AdditiveOperation("+", seven)])))])),
               AdditiveOperation("-", twelve)]))) == Some(8)
  {
    var half := MultiplicativeExpression(one, [MultiplicativeOperation("/", two)]);
    var sum := AdditiveExpression(three, [AdditiveOperation("+", seven)]);
    var product := MultiplicativeExpression(two, [MultiplicativeOperation("*", Parenthesised(sum))]);
    var e := AdditiveExpression(half, [AdditiveOperation("+", product), AdditiveOperation("-", twelve)]);
    MultiplicativeIntegerStep(half, 0, "/", two, 1, 2);
    assert TruncDiv(1, 2) == 0;
    AdditiveIntegerStep(sum, 0, "+", seven, 3, 7);
    ParenthesisedLowers(sum);
    MultiplicativeIntegerStep(product, 0, "*", Parenthesised(sum), 2, 10);
    AdditiveIntegerStep(e, 0, "+", product, 0, 20);
    AdditiveIntegerStep(e, 1, "-", twelve, 20, 12);
  }

  /** "4.123 -20 + 62.145 - 108.2;" produces a double: the integer 20 is converted. */
  lemma ComplexFloatArithmetic()
    ensures var v := LowerAdditive(AdditiveExpression(Term(DoubleOperand("4.123")),
              [AdditiveOperation("-", Term(IntOperand(20))), AdditiveOperation("+", Term(DoubleOperand("62.145"))),
               AdditiveOperation("-", Term(DoubleOperand("108.2")))]));
            TypeOf(v) == Double && EvalInt(v).None?
  {
  }

  /** "10 % 3 + 7 * 3 / 4.0;" produces a double although its first term is an integer. */
  lemma ComplexFloatMultiplication()
    ensures var v := LowerAdditive(AdditiveExpression(
              MultiplicativeExpression(IntOperand(10), [MultiplicativeOperation("%", IntOperand(3))]),
              [AdditiveOperation("+", MultiplicativeExpression(IntOperand(7),
                 [MultiplicativeOperation("*", IntOperand(3)), MultiplicativeOperation("/", DoubleOperand("4.0"))]))]));
            TypeOf(v) == Double
  {
  }

  /**
   * "x + 1": an identifier compiles to the i8* null, so the integer add the
   * compiler builds has a pointer operand, a tree LLVM's builder rejects.
   */
  lemma IdentifierOperandIsIllTyped(name: string)
    ensures !WellTyped(LowerAdditive(AdditiveExpression(Term(Operand(Identifier(name))),
              [AdditiveOperation("+", Term(IntOperand(1)))])))
  {
    var e := AdditiveExpression(Term(Operand(Identifier(name))), [AdditiveOperation("+", Term(IntOperand(1)))]);
    UnaryLowersThroughPrimary([], [], Identifier(name), [], None);
    IntOperandLowers(1);
    assert AdditivePrefix(e, 1) == CreateAdd(NullI8Ptr, ConstantInt(64, 1));
  }

  /**
   * "55 << 4;": shift operations are not compiled, so the result is the
   * left operand 55 (test/compiler_test.cc expects 880).
   */
  lemma ShiftLeftKeepsLeftOperand()
    ensures EvalInt(LowerShift(ShiftExpression(AdditiveExpression(Term(IntOperand(55)), []),
              [ShiftOperation("<<", AdditiveExpression(Term(IntOperand(4)), []))])))
            == Some(55)
  {
  }
}
