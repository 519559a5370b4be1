/**
 * The abstract syntax tree that the kunjs grammar produces (src/kunjs/ast.h).
 * Each boost::variant becomes a datatype with one constructor per
 * alternative; each struct becomes a datatype with one constructor whose
 * fields keep the struct's field order; std::vector becomes seq and
 * boost::optional becomes Option.
 *
 * Two lists are non-empty by construction: an Expression (the grammar's
 * `assignment_expression % ','`) and a Var (`variable_declaration % ","`)
 * always hold at least one item, so they are a head plus a tail here.
 */
module Ast {
  import opened Wrappers

  /** Numeric = variant<int, double>. The int alternative holds a 32-bit
      value; a double is kept by its source spelling. */
  datatype Numeric = IntNum(value: int) | DoubleNum(spelling: string)

  /** Literal = variant<Null, bool, Numeric, string>. */
  datatype Literal =
    | NullLiteral
    | BoolLiteral(truth: bool)
    | NumericLiteral(number: Numeric)
    | StringLiteral(text: string)

  /** PrimaryExpression = variant<This, identifier, Literal, Expression>.
      Both a parenthesised expression and an array literal produce the
      Expression alternative. */
  datatype PrimaryExpression =
    | This
    | Identifier(name: string)
    | LiteralValue(literal: Literal)
    | Grouped(items: Expression)

  datatype FunctionExpression =
    FunctionExpression(name: Option<string>, parameters: seq<string>, body: seq<SourceElement>)

  datatype MemberOptions =
    | PrimaryMember(primary: PrimaryExpression)
    | FunctionMember(function_: FunctionExpression)

  /** MemberModifier = variant<Expression, string>: `[e]` or `.name`. */
  datatype MemberModifier = IndexModifier(index: Expression) | PropertyModifier(property: string)

  /** MemberExpression = variant<MemberAccess, Instantiation>. */
  datatype MemberExpression =
    | MemberAccess(member: MemberOptions, modifiers: seq<MemberModifier>)
    | Instantiation(target: MemberExpression, arguments: seq<AssignmentExpression>)

  datatype NewExpression = NewExpression(operators: seq<string>, member: MemberExpression)

  /** CallModifiers = variant<Arguments, Expression, string>. */
  datatype CallModifier =
    | CallArguments(arguments: seq<AssignmentExpression>)
    | CallIndex(index: Expression)
    | CallProperty(property: string)

  datatype CallExpression =
    CallExpression(target: MemberExpression, arguments: seq<AssignmentExpression>, modifiers: seq<CallModifier>)

  datatype LhsExpression = Call(call: CallExpression) | New(newExpression: NewExpression)

  datatype PostfixExpression = PostfixExpression(lhs: LhsExpression, op: Option<string>)

  datatype UnaryExpression = UnaryExpression(operators: seq<string>, rhs: PostfixExpression)

  datatype MultiplicativeOperation = MultiplicativeOperation(op: string, rhs: UnaryExpression)
  datatype MultiplicativeExpression =
    MultiplicativeExpression(lhs: UnaryExpression, operations: seq<MultiplicativeOperation>)

  datatype AdditiveOperation = AdditiveOperation(op: string, rhs: MultiplicativeExpression)
  datatype AdditiveExpression =
    AdditiveExpression(lhs: MultiplicativeExpression, operations: seq<AdditiveOperation>)

  datatype ShiftOperation = ShiftOperation(op: string, rhs: AdditiveExpression)
  datatype ShiftExpression = ShiftExpression(lhs: AdditiveExpression, operations: seq<ShiftOperation>)

  datatype RelationalOperation = RelationalOperation(op: string, rhs: ShiftExpression)
  datatype RelationalExpression =
    RelationalExpression(lhs: ShiftExpression, operations: seq<RelationalOperation>)

  datatype EqualityOperation = EqualityOperation(op: string, rhs: RelationalExpression)
  datatype EqualityExpression =
    EqualityExpression(lhs: RelationalExpression, operations: seq<EqualityOperation>)

  /** The bitwise and logical levels keep no operator: the operator of the
      level is implied, and each operation is just the next operand. */
  datatype BitwiseAndExpression =
    BitwiseAndExpression(lhs: EqualityExpression, operations: seq<EqualityExpression>)
  datatype BitwiseXorExpression =
    BitwiseXorExpression(lhs: BitwiseAndExpression, operations: seq<BitwiseAndExpression>)
  datatype BitwiseOrExpression =
    BitwiseOrExpression(lhs: BitwiseXorExpression, operations: seq<BitwiseXorExpression>)
  datatype LogicalAndExpression =
    LogicalAndExpression(lhs: BitwiseOrExpression, operations: seq<BitwiseOrExpression>)
  datatype LogicalOrExpression =
    LogicalOrExpression(lhs: LogicalAndExpression, operations: seq<LogicalAndExpression>)

  datatype ConditionalClauses =
    ConditionalClauses(trueClause: AssignmentExpression, falseClause: AssignmentExpression)

  datatype ConditionalExpression =
    ConditionalExpression(lhs: LogicalOrExpression, clauses: Option<ConditionalClauses>)

  datatype AssignmentOperation = AssignmentOperation(lhs: LhsExpression, op: string)

  datatype AssignmentExpression =
    AssignmentExpression(assignments: seq<AssignmentOperation>, rhs: ConditionalExpression)

  /** Expression = vector<AssignmentExpression>, one or more items. */
  datatype Expression = Expression(head: AssignmentExpression, tail: seq<AssignmentExpression>)
  {
    function Items(): (r: seq<AssignmentExpression>)
      ensures |r| == 1 + |tail| && r[0] == head && r[1..] == tail
    {
      [head] + tail
    }
  }

  datatype VarDeclaration = VarDeclaration(name: string, assignment: Option<AssignmentExpression>)

  /** Var = vector<VarDeclaration>, one or more declarations. */
  datatype Var = Var(head: VarDeclaration, tail: seq<VarDeclaration>)
  {
    function Declarations(): (r: seq<VarDeclaration>)
      ensures |r| == 1 + |tail| && r[0] == head && r[1..] == tail
    {
      [head] + tail
    }
  }

  datatype If = If(condition: Expression, trueClause: Statement, falseClause: Option<Statement>)
  datatype DoWhile = DoWhile(statement: Statement, condition: Expression)
  datatype While = While(condition: Expression, statement: Statement)
  datatype For = For(initialization: Option<Expression>, condition: Option<Expression>,
                     action: Option<Expression>, statement: Statement)
  datatype ForWithVar = ForWithVar(initialization: Var, condition: Option<Expression>,
                                   action: Option<Expression>, statement: Statement)
  datatype Foreach = Foreach(item: LhsExpression, list: Expression, statement: Statement)
  datatype ForeachWithVar = ForeachWithVar(item: VarDeclaration, list: Expression, statement: Statement)
  datatype With = With(context: Expression, statement: Statement)
  datatype LabelledStatement = LabelledStatement(labelName: string, statement: Statement)
  datatype Case = Case(matchClause: Expression, statements: seq<Statement>)

  /** An optional vector<Statement> (a switch's default clause, a finally
      block) is wrapped in this datatype so that recursion over the
      statements inside it can be shown to terminate. */
  datatype StatementList = StatementList(statements: seq<Statement>)

  datatype Switch = Switch(condition: Expression, clauses: seq<Case>,
                           defaultClause: Option<StatementList>, otherClauses: seq<Case>)
  datatype Catch = Catch(exceptionName: string, statements: seq<Statement>)
  datatype Try = Try(statements: seq<Statement>, catchBlock: Option<Catch>,
                     finallyBlock: Option<StatementList>)

  /** Statement: the twenty alternatives of the recursive variant, in order.
      The string alternative is the `debugger` statement and the vector
      alternative is a block. */
  datatype Statement =
    | ExpressionStatement(expression: Expression)
    | VarStatement(declarations: Var)
    | Noop
    | IfStatement(ifStatement: If)
    | DoWhileStatement(doWhile: DoWhile)
    | WhileStatement(whileStatement: While)
    | ForStatement(forStatement: For)
    | ForWithVarStatement(forWithVar: ForWithVar)
    | ForeachStatement(foreach: Foreach)
    | ForeachWithVarStatement(foreachWithVar: ForeachWithVar)
    | Continue(labelName: Option<string>)
    | Break(labelName: Option<string>)
    | Return(result: Option<Expression>)
    | WithStatement(with: With)
    | Labelled(labelled: LabelledStatement)
    | SwitchStatement(switch: Switch)
    | Throw(thrown: Expression)
    | TryStatement(try: Try)
    | Debugger(keyword: string)
    | Block(statements: seq<Statement>)

  datatype FunctionDeclaration =
    FunctionDeclaration(name: string, parameters: seq<string>, body: seq<SourceElement>)

  datatype SourceElement = FunctionElement(declaration: FunctionDeclaration) | StatementElement(statement: Statement)

  type Program = seq<SourceElement>
}
