/**
 * What the kunjs AST printer (src/kunjs/printer.cc) writes, as a sequence of
 * lines.  Every node prints as an S-expression: an opening "(Name" line, its
 * children indented by INDENT_STEP more, and a closing ")" line at the
 * node's own indentation; leaves print one line.  Each function here gives
 * the lines one printer handler writes for a node at a given indentation,
 * and promises that every one of them is indented at least that deep.
 */
module PrinterLines {
  import opened Wrappers
  import opened Ast
  import Lexical

  type Step = n: int | n > 0 witness 1

  /** The indentation added per nesting level; its value is not part of the source shown. */
  const INDENT_STEP: Step

  /** `Indent(level)`: `level` spaces, none for a negative level. */
  function Spaces(level: int): (r: string)
    ensures |r| == if level < 0 then 0 else level
    ensures forall k :: 0 <= k < |r| ==> r[k] == ' '
  {
    if level <= 0 then "" else Spaces(level - 1) + " "
  }

  /** One output line: the indentation followed by the text. */
  function Line(level: nat, text: string): string {
    Spaces(level) + text
  }

  /** `line` starts with at least `level` spaces. */
  predicate Indented(line: string, level: nat) {
    level <= |line| && forall k :: 0 <= k < level ==> line[k] == ' '
  }

  predicate AllIndented(lines: seq<string>, level: nat) {
    forall k :: 0 <= k < |lines| ==> Indented(lines[k], level)
  }

  /** An "(title" line, the lines inside, and a ")" line, the frame every composite node prints. */
  function Section(level: nat, title: string, inner: seq<string>): (r: seq<string>)
    ensures |r| == |inner| + 2
  {
    [Line(level, title)] + inner + [Line(level, ")")]
  }

  function DigitChar(d: nat): char
    requires d < 10
  {
    "0123456789"[d]
  }

  /** Decimal digits of a natural number, as `operator<<` on an int writes them. */
  function DecimalText(n: nat): (r: string)
    ensures r != [] && forall k :: 0 <= k < |r| ==> '0' <= r[k] <= '9'
  {
    if n < 10 then [DigitChar(n)] else DecimalText(n / 10) + [DigitChar(n % 10)]
  }

  /** A literal as `operator<<` on the Literal variant writes it. */
  function LiteralText(l: Literal): (r: string)
    ensures l.NullLiteral? ==> r == "null"
    ensures l.BoolLiteral? ==> r == (if l.truth then "1" else "0")
    ensures l.StringLiteral? ==> r == l.text
    ensures l.NumericLiteral? && l.number.DoubleNum? ==> r == l.number.spelling
    ensures l.NumericLiteral? && l.number.IntNum? ==>
              r != [] && (r[0] == '-' <==> l.number.value < 0)
              && var digits := if l.number.value < 0 then r[1..] else r;
                 (forall k :: 0 <= k < |digits| ==> Lexical.IsDigit(digits[k]))
                 && Lexical.DecimalValue(digits) == if l.number.value < 0 then -l.number.value else l.number.value
  {
    match l
    case NullLiteral => "null"
    case BoolLiteral(b) => if b then "1" else "0"
    case NumericLiteral(IntNum(n)) => IntegerText(n)
    case NumericLiteral(DoubleNum(spelling)) => spelling
    case StringLiteral(text) => text
  }

  /** An integer as `operator<<` writes it: a "-" exactly when negative, then the decimal digits of its magnitude. */
  function IntegerText(n: int): (r: string)
    ensures r != [] && (r[0] == '-' <==> n < 0)
    ensures n < 0 ==> (forall k :: 1 <= k < |r| ==> Lexical.IsDigit(r[k])) && Lexical.DecimalValue(r[1..]) == -n
    ensures n >= 0 ==> (forall k :: 0 <= k < |r| ==> Lexical.IsDigit(r[k])) && Lexical.DecimalValue(r) == n
  {
    if n < 0 then
      NegativeTextValue(-n);
      "-" + DecimalText(-n)
    else
      DecimalTextValue(n);
      DecimalText(n)
  }

  /** A "-" before the digits of `m` is lexed past the sign as `m` again. */
  lemma NegativeTextValue(m: nat)
    ensures var r := "-" + DecimalText(m);
            r[1..] == DecimalText(m)
            && (forall k :: 1 <= k < |r| ==> Lexical.IsDigit(r[k]))
            && Lexical.DecimalValue(r[1..]) == m
  {
    var r := "-" + DecimalText(m);
    assert r[1..] == DecimalText(m);
    DecimalTextValue(m);
    forall k | 1 <= k < |r|
      ensures Lexical.IsDigit(r[k])
    {
      assert r[k] == DecimalText(m)[k - 1];
    }
  }



  /** The one line of `continue` or `break`: "(Continue (label L))" or "(Continue)". */
  function JumpLine(level: nat, keyword: string, labelName: Option<string>): (r: string)
    ensures Indented(r, level)
    ensures r[level..] == "(" + keyword + ")" <==> labelName.None?
    ensures labelName.Some? ==> r[level..] == "(" + keyword + " (label " + labelName.value + "))"
  {
    match labelName
    case Some(name) => Line(level, "(" + keyword + " (label " + name + "))")
    case None => Line(level, "(" + keyword + ")")
  }

  // ---------------------------------------------------------------- ASTPrinter

  function ProgramLines(program: Program, level: nat): (r: seq<string>)
    ensures AllIndented(r, level)
    decreases program, 1
  {
    Section(level, "(Program ", SourceElementListLines(program, level + INDENT_STEP))
  }

  /** `std::for_each` over the elements with one printer: each at the same indentation. */
  function SourceElementListLines(elements: seq<SourceElement>, level: nat): (r: seq<string>)
    ensures AllIndented(r, level)
    decreases elements, 0
  {
    if elements == [] then []
    else SourceElementListLines(elements[..|elements| - 1], level)
         + SourceElementLines(elements[|elements| - 1], level)
  }

  function SourceElementLines(element: SourceElement, level: nat): (r: seq<string>)
    ensures AllIndented(r, level)
    decreases element, 1
  {
    Section(level, "(SourceElement ", SourceElementBodyLines(element, level + INDENT_STEP))
  }

  function SourceElementBodyLines(element: SourceElement, level: nat): (r: seq<string>)
    ensures AllIndented(r, level)
    decreases element, 0
  {
    match element
    case FunctionElement(declaration) => FunctionDeclarationLines(declaration, level)
    case StatementElement(statement) => StatementLines(statement, level)
  }

  /** A function declaration prints a placeholder: its name, parameters and body are not shown. */
  function FunctionDeclarationLines(declaration: FunctionDeclaration, level: nat): (r: seq<string>)
    ensures AllIndented(r, level)
  {
    [Line(level, "(FunctionDeclaration)")]
  }

  /** A statement list: each statement at the same indentation. */
  function StatementListLines(list: seq<Statement>, level: nat): (r: seq<string>)
    ensures AllIndented(r, level)
    decreases list, 0
  {
    if list == [] then []
    else StatementListLines(list[..|list| - 1], level) + StatementLines(list[|list| - 1], level)
  }

  function StatementLines(statement: Statement, level: nat): (r: seq<string>)
    ensures AllIndented(r, level)
    decreases statement, 2
  {
    Section(level, "(Statement ", StatementBodyLines(statement, level + INDENT_STEP))
  }

  /** A title line, a statement one step deeper, a closing line: the frame of a clause or a loop body. */
  function StatementSectionLines(title: string, statement: Statement, level: nat): (r: seq<string>)
    ensures AllIndented(r, level)
    decreases statement, 3
  {
    Section(level, title, StatementLines(statement, level + INDENT_STEP))
  }

  /** A title line, an expression one step deeper, a closing line: the frame of a condition or a loop part. */
  function ExpressionSectionLines(title: string, e: Expression, level: nat): (r: seq<string>)
    ensures AllIndented(r, level)
    decreases e, 1
  {
    Section(level, title, ExpressionLines(e, level + INDENT_STEP))
  }

  // ---------------------------------------------------------------- StatementPrinter

  function StatementBodyLines(statement: Statement, level: nat): (r: seq<string>)
    ensures AllIndented(r, level)
    decreases statement, 1
  {
    if IsBranching(statement) then BranchingLines(statement, level)
    else if IsForLoop(statement) then ForLoopLines(statement, level)
    else if IsCompound(statement) then CompoundLines(statement, level)
    else if IsJump(statement) then JumpStatementLines(statement, level)
    else SimpleStatementLines(statement, level)
  }

  /** The alternatives a conditional or a condition-driven loop takes. */
  predicate IsBranching(statement: Statement)
  {
    statement.IfStatement? || statement.DoWhileStatement? || statement.WhileStatement?
  }

  /** The four forms of a for loop. */
  predicate IsForLoop(statement: Statement)
  {
    statement.ForStatement? || statement.ForWithVarStatement? ||
    statement.ForeachStatement? || statement.ForeachWithVarStatement?
  }

  /** Statements that wrap other statements: with, labelled, switch and try. */
  predicate IsCompound(statement: Statement)
  {
    statement.WithStatement? || statement.Labelled? || statement.SwitchStatement? || statement.TryStatement?
  }

  /** Statements that leave the normal flow: continue, break, return and throw. */
  predicate IsJump(statement: Statement)
  {
    statement.Continue? || statement.Break? || statement.Return? || statement.Throw?
  }

  function BranchingLines(statement: Statement, level: nat): (r: seq<string>)
    requires IsBranching(statement)
    ensures AllIndented(r, level)
    decreases statement, 0
  {
    if statement.IfStatement? then IfLines(statement.ifStatement, level)
    else if statement.DoWhileStatement? then DoWhileLines(statement.doWhile, level)
    else WhileLines(statement.whileStatement, level)
  }

  function ForLoopLines(statement: Statement, level: nat): (r: seq<string>)
    requires IsForLoop(statement)
    ensures AllIndented(r, level)
    decreases statement, 0
  {
    if statement.ForStatement? then ForLines(statement.forStatement, level)
    else if statement.ForWithVarStatement? then ForWithVarLines(statement.forWithVar, level)
    else if statement.ForeachStatement? then ForeachLines(statement.foreach, level)
    else ForeachWithVarLines(statement.foreachWithVar, level)
  }

  function CompoundLines(statement: Statement, level: nat): (r: seq<string>)
    requires IsCompound(statement)
    ensures AllIndented(r, level)
    decreases statement, 0
  {
    if statement.WithStatement? then WithLines(statement.with, level)
    else if statement.Labelled? then LabelledLines(statement.labelled, level)
    else if statement.SwitchStatement? then SwitchLines(statement.switch, level)
    else TryLines(statement.try, level)
  }

  function JumpStatementLines(statement: Statement, level: nat): (r: seq<string>)
    requires IsJump(statement)
    ensures AllIndented(r, level)
    decreases statement, 0
  {
    if statement.Continue? then [JumpLine(level, "Continue", statement.labelName)]
    else if statement.Break? then [JumpLine(level, "Break", statement.labelName)]
    else if statement.Return? then ReturnLines(statement.result, level)
    else ExpressionSectionLines("(Throw", statement.thrown, level)
  }

  /** An expression, a var statement, an empty statement, `debugger` or a block. */
  function SimpleStatementLines(statement: Statement, level: nat): (r: seq<string>)
    requires !IsBranching(statement) && !IsForLoop(statement) && !IsCompound(statement) && !IsJump(statement)
    ensures AllIndented(r, level)
    decreases statement, 0
  {
    if statement.ExpressionStatement? then ExpressionLines(statement.expression, level)
    else if statement.VarStatement? then VarLines(statement.declarations, level)
    else if statement.Noop? then [Line(level, "(Empty)")]
    else if statement.Debugger? then [Line(level, "(Debugger)")]
    else StatementListLines(statement.statements, level)
  }

  /** An expression list: "(Expression " and every item one step deeper. */
  function ExpressionLines(e: Expression, level: nat): (r: seq<string>)
    ensures AllIndented(r, level)
    decreases e, 0
  {
    Section(level, "(Expression ",
            AssignmentLines(e.head, level + INDENT_STEP) + AssignmentListLines(e.tail, level + INDENT_STEP))
  }

  /** Every declaration of a var statement as its own "(Var" block. */
  function VarLines(v: Var, level: nat): (r: seq<string>)
    ensures AllIndented(r, level)
    decreases v, 0
  {
    VarDeclarationLines(v.head, level) + VarDeclarationListLines(v.tail, level)
  }

  function VarDeclarationListLines(declarations: seq<VarDeclaration>, level: nat): (r: seq<string>)
    ensures AllIndented(r, level)
    decreases declarations, 0
  {
    if declarations == [] then []
    else VarDeclarationListLines(declarations[..|declarations| - 1], level)
         + VarDeclarationLines(declarations[|declarations| - 1], level)
  }

  /** "(Var", the "(name …)" line, the initializer when there is one, ")". */
  function VarDeclarationLines(declaration: VarDeclaration, level: nat): (r: seq<string>)
    ensures AllIndented(r, level)
    decreases declaration, 0
  {
    var next := level + INDENT_STEP;
    Section(level, "(Var",
            [Line(next, "(name " + declaration.name + ")")] + InitializerLines(declaration.assignment, next))
  }

  /** The initializer of a declaration when it has one, nothing otherwise. */
  function InitializerLines(assignment: Option<AssignmentExpression>, level: nat): (r: seq<string>)
    ensures AllIndented(r, level)
    decreases assignment, 0
  {
    match assignment
    case Some(a) => AssignmentLines(a, level)
    case None => []
  }

  function IfLines(x: If, level: nat): (r: seq<string>)
    ensures AllIndented(r, level)
    decreases x, 0
  {
    var next := level + INDENT_STEP;
    Section(level, "(If ",
            ExpressionSectionLines("(condition ", x.condition, next)
            + StatementSectionLines("(true_clause ", x.trueClause, next)
            + ElseLines(x.falseClause, next))
  }

  /** The "(false_clause " section of an if statement with an else branch, nothing otherwise. */
  function ElseLines(falseClause: Option<Statement>, level: nat): (r: seq<string>)
    ensures AllIndented(r, level)
    decreases falseClause, 0
  {
    match falseClause
    case Some(s) => StatementSectionLines("(false_clause ", s, level)
    case None => []
  }

  function DoWhileLines(x: DoWhile, level: nat): (r: seq<string>)
    ensures AllIndented(r, level)
    decreases x, 0
  {
    var next := level + INDENT_STEP;
    Section(level, "(DoWhile ",
            StatementSectionLines("(body ", x.statement, next)
            + ExpressionSectionLines("(condition ", x.condition, next))
  }

  function WhileLines(x: While, level: nat): (r: seq<string>)
    ensures AllIndented(r, level)
    decreases x, 0
  {
    var next := level + INDENT_STEP;
    Section(level, "(While ",
            ExpressionSectionLines("(condition ", x.condition, next)
            + StatementSectionLines("(body ", x.statement, next))
  }

  /** An optional expression part of a for loop, framed by its title, or nothing. */
  function OptionalExpressionLines(part: Option<Expression>, title: string, level: nat): (r: seq<string>)
    ensures AllIndented(r, level)
    decreases part, 0
  {
    match part
    case Some(e) => ExpressionSectionLines(title, e, level)
    case None => []
  }

  function ForLines(x: For, level: nat): (r: seq<string>)
    ensures AllIndented(r, level)
    decreases x, 1
  {
    Section(level, "(For ", ForBodyLines(x, level + INDENT_STEP))
  }

  /** The parts of a for loop: each optional part when present, then the body. */
  function ForBodyLines(x: For, level: nat): (r: seq<string>)
    ensures AllIndented(r, level)
    decreases x, 0
  {
    OptionalExpressionLines(x.initialization, "(initialization ", level)
    + OptionalExpressionLines(x.condition, "(condition ", level)
    + OptionalExpressionLines(x.action, "(action ", level)
    + StatementSectionLines("(body ", x.statement, level)
  }

  /** One "(initialization " section per declaration. */
  function InitializationListLines(declarations: seq<VarDeclaration>, level: nat): (r: seq<string>)
    ensures AllIndented(r, level)
    decreases declarations, 0
  {
    if declarations == [] then []
    else InitializationListLines(declarations[..|declarations| - 1], level)
         + VarDeclarationSectionLines("(initialization ", declarations[|declarations| - 1], level)
  }

  /** A title line, a declaration one step deeper, a closing line: a for loop's initialization or item. */
  function VarDeclarationSectionLines(title: string, declaration: VarDeclaration, level: nat): (r: seq<string>)
    ensures AllIndented(r, level)
    decreases declaration, 1
  {
    Section(level, title, VarDeclarationLines(declaration, level + INDENT_STEP))
  }

  /** A title line, a left-hand side one step deeper, a closing line: a foreach loop's item. */
  function LhsSectionLines(title: string, e: LhsExpression, level: nat): (r: seq<string>)
    ensures AllIndented(r, level)
    decreases e, 2
  {
    Section(level, title, LhsLines(e, level + INDENT_STEP))
  }

  function ForWithVarLines(x: ForWithVar, level: nat): (r: seq<string>)
    ensures AllIndented(r, level)
    decreases x, 1
  {
    Section(level, "(ForWithVar ", ForWithVarBodyLines(x, level + INDENT_STEP))
  }

  /** The parts of a for loop with var: one initialization per declaration, the optional parts, the body. */
  function ForWithVarBodyLines(x: ForWithVar, level: nat): (r: seq<string>)
    ensures AllIndented(r, level)
    decreases x, 0
  {
    InitializationListLines(x.initialization.Declarations(), level)
    + OptionalExpressionLines(x.condition, "(condition ", level)
    + OptionalExpressionLines(x.action, "(action ", level)
    + StatementSectionLines("(body ", x.statement, level)
  }

  function ForeachLines(x: Foreach, level: nat): (r: seq<string>)
    ensures AllIndented(r, level)
    decreases x, 0
  {
    var next := level + INDENT_STEP;
    Section(level, "(Foreach ",
            LhsSectionLines("(item ", x.item, next)
            + ExpressionSectionLines("(list ", x.list, next)
            + StatementSectionLines("(body ", x.statement, next))
  }

  function ForeachWithVarLines(x: ForeachWithVar, level: nat): (r: seq<string>)
    ensures AllIndented(r, level)
    decreases x, 0
  {
    var next := level + INDENT_STEP;
    Section(level, "(ForeachWithVar ",
            VarDeclarationSectionLines("(item ", x.item, next)
            + ExpressionSectionLines("(list ", x.list, next)
            + StatementSectionLines("(body ", x.statement, next))
  }

  /** "(Return)" alone, or "(Return", the expression one step deeper, ")". */
  function ReturnLines(result: Option<Expression>, level: nat): (r: seq<string>)
    ensures AllIndented(r, level)
    decreases result, 0
  {
    match result
    case Some(e) => ExpressionSectionLines("(Return", e, level)
    case None => [Line(level, "(Return)")]
  }

  function WithLines(x: With, level: nat): (r: seq<string>)
    ensures AllIndented(r, level)
    decreases x, 0
  {
    var next := level + INDENT_STEP;
    Section(level, "(With",
            ExpressionSectionLines("(context ", x.context, next)
            + StatementSectionLines("(body ", x.statement, next))
  }

  function LabelledLines(x: LabelledStatement, level: nat): (r: seq<string>)
    ensures AllIndented(r, level)
    decreases x, 0
  {
    var next := level + INDENT_STEP;
    Section(level, "(LabelledStatement",
            [Line(next, "(label " + x.labelName + ")")] + StatementLines(x.statement, next))
  }

  function CaseLines(clause: Case, level: nat): (r: seq<string>)
    ensures AllIndented(r, level)
    decreases clause, 0
  {
    var next := level + INDENT_STEP;
    Section(level, "(Case",
            ExpressionSectionLines("(match", clause.matchClause, next)
            + StatementListLines(clause.statements, next))
  }

  function CaseListLines(clauses: seq<Case>, level: nat): (r: seq<string>)
    ensures AllIndented(r, level)
    decreases clauses, 0
  {
    if clauses == [] then []
    else CaseListLines(clauses[..|clauses| - 1], level) + CaseLines(clauses[|clauses| - 1], level)
  }

  function DefaultLines(defaultClause: Option<StatementList>, level: nat): (r: seq<string>)
    ensures AllIndented(r, level)
    decreases defaultClause, 0
  {
    match defaultClause
    case Some(list) => Section(level, "(Default", StatementListLines(list.statements, level + INDENT_STEP))
    case None => []
  }

  function SwitchLines(x: Switch, level: nat): (r: seq<string>)
    ensures AllIndented(r, level)
    decreases x, 1
  {
    Section(level, "(Switch", SwitchBodyLines(x, level + INDENT_STEP))
  }

  /** The condition, the cases before the default, the default if any, the cases after it. */
  function SwitchBodyLines(x: Switch, level: nat): (r: seq<string>)
    ensures AllIndented(r, level)
    decreases x, 0
  {
    ExpressionSectionLines("(condition", x.condition, level)
    + CaseListLines(x.clauses, level)
    + DefaultLines(x.defaultClause, level)
    + CaseListLines(x.otherClauses, level)
  }

  function CatchLines(catchBlock: Option<Catch>, level: nat): (r: seq<string>)
    ensures AllIndented(r, level)
    decreases catchBlock, 0
  {
    match catchBlock
    case Some(c) =>
      Section(level, "(Catch",
              [Line(level + INDENT_STEP, "(exception_name " + c.exceptionName + ")")]
              + StatementListLines(c.statements, level + INDENT_STEP))
    case None => []
  }

  function FinallyLines(finallyBlock: Option<StatementList>, level: nat): (r: seq<string>)
    ensures AllIndented(r, level)
    decreases finallyBlock, 0
  {
    match finallyBlock
    case Some(list) => Section(level, "(Finally", StatementListLines(list.statements, level + INDENT_STEP))
    case None => []
  }

  function TryLines(x: Try, level: nat): (r: seq<string>)
    ensures AllIndented(r, level)
    decreases x, 0
  {
    var next := level + INDENT_STEP;
    Section(level, "(Try",
            StatementListLines(x.statements, next)
            + CatchLines(x.catchBlock, next)
            + FinallyLines(x.finallyBlock, next))
  }

  // ---------------------------------------------------------------- ExpressionPrinter

  function AssignmentListLines(items: seq<AssignmentExpression>, level: nat): (r: seq<string>)
    ensures AllIndented(r, level)
    decreases items, 0
  {
    if items == [] then []
    else AssignmentListLines(items[..|items| - 1], level) + AssignmentLines(items[|items| - 1], level)
  }

  function AssignmentLines(e: AssignmentExpression, level: nat): (r: seq<string>)
    ensures AllIndented(r, level)
    decreases e, 0
  {
    var next := level + INDENT_STEP;
    Section(level, "(AssignmentExpression",
            AssignmentOperationListLines(e.assignments, next) + ConditionalLines(e.rhs, next))
  }

  function AssignmentOperationListLines(operations: seq<AssignmentOperation>, level: nat): (r: seq<string>)
    ensures AllIndented(r, level)
    decreases operations, 0
  {
    if operations == [] then []
    else
      var operation := operations[|operations| - 1];
      AssignmentOperationListLines(operations[..|operations| - 1], level)
      + Section(level, "(AssignmentOperation",
                LhsLines(operation.lhs, level + INDENT_STEP)
                + [Line(level + INDENT_STEP, "(operator " + operation.op + ")")])
  }

  function ConditionalLines(e: ConditionalExpression, level: nat): (r: seq<string>)
    ensures AllIndented(r, level)
    decreases e, 0
  {
    var next := level + INDENT_STEP;
    Section(level, "(ConditionalExpression", LogicalOrLines(e.lhs, next) + ClausesLines(e.clauses, next))
  }

  /** The "(true_clause" and "(false_clause" sections of a ternary, nothing for a plain operand. */
  function ClausesLines(clauses: Option<ConditionalClauses>, level: nat): (r: seq<string>)
    ensures AllIndented(r, level)
    decreases clauses, 0
  {
    match clauses
    case Some(c) =>
      Section(level, "(true_clause", AssignmentLines(c.trueClause, level + INDENT_STEP))
      + Section(level, "(false_clause", AssignmentLines(c.falseClause, level + INDENT_STEP))
    case None => []
  }

  function LogicalOrLines(e: LogicalOrExpression, level: nat): (r: seq<string>)
    ensures AllIndented(r, level)
    decreases e, 0
  {
    Section(level, "(LogicalOrExpression",
            LogicalAndLines(e.lhs, level + INDENT_STEP) + LogicalAndListLines(e.operations, level + INDENT_STEP))
  }

  function LogicalAndListLines(operands: seq<LogicalAndExpression>, level: nat): (r: seq<string>)
    ensures AllIndented(r, level)
    decreases operands, 0
  {
    if operands == [] then []
    else LogicalAndListLines(operands[..|operands| - 1], level) + LogicalAndLines(operands[|operands| - 1], level)
  }

  function LogicalAndLines(e: LogicalAndExpression, level: nat): (r: seq<string>)
    ensures AllIndented(r, level)
    decreases e, 0
  {
    Section(level, "(LogicalAndExpression",
            BitwiseOrLines(e.lhs, level + INDENT_STEP) + BitwiseOrListLines(e.operations, level + INDENT_STEP))
  }

  function BitwiseOrListLines(operands: seq<BitwiseOrExpression>, level: nat): (r: seq<string>)
    ensures AllIndented(r, level)
    decreases operands, 0
  {
    if operands == [] then []
    else BitwiseOrListLines(operands[..|operands| - 1], level) + BitwiseOrLines(operands[|operands| - 1], level)
  }

  function BitwiseOrLines(e: BitwiseOrExpression, level: nat): (r: seq<string>)
    ensures AllIndented(r, level)
    decreases e, 0
  {
    Section(level, "(BitwiseOrExpression",
            BitwiseXorLines(e.lhs, level + INDENT_STEP) + BitwiseXorListLines(e.operations, level + INDENT_STEP))
  }

  function BitwiseXorListLines(operands: seq<BitwiseXorExpression>, level: nat): (r: seq<string>)
    ensures AllIndented(r, level)
    decreases operands, 0
  {
    if operands == [] then []
    else BitwiseXorListLines(operands[..|operands| - 1], level) + BitwiseXorLines(operands[|operands| - 1], level)
  }

  function BitwiseXorLines(e: BitwiseXorExpression, level: nat): (r: seq<string>)
    ensures AllIndented(r, level)
    decreases e, 0
  {
    Section(level, "(BitwiseXorExpression",
            BitwiseAndLines(e.lhs, level + INDENT_STEP) + BitwiseAndListLines(e.operations, level + INDENT_STEP))
  }

  function BitwiseAndListLines(operands: seq<BitwiseAndExpression>, level: nat): (r: seq<string>)
    ensures AllIndented(r, level)
    decreases operands, 0
  {
    if operands == [] then []
    else BitwiseAndListLines(operands[..|operands| - 1], level) + BitwiseAndLines(operands[|operands| - 1], level)
  }

  function BitwiseAndLines(e: BitwiseAndExpression, level: nat): (r: seq<string>)
    ensures AllIndented(r, level)
    decreases e, 0
  {
    Section(level, "(BitwiseAndExpression",
            EqualityLines(e.lhs, level + INDENT_STEP) + EqualityListLines(e.operations, level + INDENT_STEP))
  }

  function EqualityListLines(operands: seq<EqualityExpression>, level: nat): (r: seq<string>)
    ensures AllIndented(r, level)
    decreases operands, 0
  {
    if operands == [] then []
    else EqualityListLines(operands[..|operands| - 1], level) + EqualityLines(operands[|operands| - 1], level)
  }

  /** An "(operator op)" line and the operand after it, for each operation in order. */
  function EqualityLines(e: EqualityExpression, level: nat): (r: seq<string>)
    ensures AllIndented(r, level)
    decreases e, 0
  {
    Section(level, "(EqualityExpression",
            RelationalLines(e.lhs, level + INDENT_STEP) + EqualityOperationListLines(e.operations, level + INDENT_STEP))
  }

  function EqualityOperationListLines(operations: seq<EqualityOperation>, level: nat): (r: seq<string>)
    ensures AllIndented(r, level)
    decreases operations, 0
  {
    if operations == [] then []
    else
      var operation := operations[|operations| - 1];
      EqualityOperationListLines(operations[..|operations| - 1], level)
      + [Line(level, "(operator " + operation.op + ")")] + RelationalLines(operation.rhs, level)
  }

  function RelationalLines(e: RelationalExpression, level: nat): (r: seq<string>)
    ensures AllIndented(r, level)
    decreases e, 0
  {
    Section(level, "(RelationalExpression",
            ShiftLines(e.lhs, level + INDENT_STEP) + RelationalOperationListLines(e.operations, level + INDENT_STEP))
  }

  function RelationalOperationListLines(operations: seq<RelationalOperation>, level: nat): (r: seq<string>)
    ensures AllIndented(r, level)
    decreases operations, 0
  {
    if operations == [] then []
    else
      var operation := operations[|operations| - 1];
      RelationalOperationListLines(operations[..|operations| - 1], level)
      + [Line(level, "(operator " + operation.op + ")")] + ShiftLines(operation.rhs, level)
  }

  function ShiftLines(e: ShiftExpression, level: nat): (r: seq<string>)
    ensures AllIndented(r, level)
    decreases e, 0
  {
    Section(level, "(ShiftExpression",
            AdditiveLines(e.lhs, level + INDENT_STEP) + ShiftOperationListLines(e.operations, level + INDENT_STEP))
  }

  function ShiftOperationListLines(operations: seq<ShiftOperation>, level: nat): (r: seq<string>)
    ensures AllIndented(r, level)
    decreases operations, 0
  {
    if operations == [] then []
    else
      var operation := operations[|operations| - 1];
      ShiftOperationListLines(operations[..|operations| - 1], level)
      + [Line(level, "(operator " + operation.op + ")")] + AdditiveLines(operation.rhs, level)
  }

  function AdditiveLines(e: AdditiveExpression, level: nat): (r: seq<string>)
    ensures AllIndented(r, level)
    decreases e, 0
  {
    Section(level, "(AdditiveExpression",
            MultiplicativeLines(e.lhs, level + INDENT_STEP) + AdditiveOperationListLines(e.operations, level + INDENT_STEP))
  }

  function AdditiveOperationListLines(operations: seq<AdditiveOperation>, level: nat): (r: seq<string>)
    ensures AllIndented(r, level)
    decreases operations, 0
  {
    if operations == [] then []
    else
      var operation := operations[|operations| - 1];
      AdditiveOperationListLines(operations[..|operations| - 1], level)
      + [Line(level, "(operator " + operation.op + ")")] + MultiplicativeLines(operation.rhs, level)
  }

  function MultiplicativeLines(e: MultiplicativeExpression, level: nat): (r: seq<string>)
    ensures AllIndented(r, level)
    decreases e, 0
  {
    Section(level, "(MultiplicativeExpression",
            UnaryLines(e.lhs, level + INDENT_STEP) + MultiplicativeOperationListLines(e.operations, level + INDENT_STEP))
  }

  function MultiplicativeOperationListLines(operations: seq<MultiplicativeOperation>, level: nat): (r: seq<string>)
    ensures AllIndented(r, level)
    decreases operations, 0
  {
    if operations == [] then []
    else
      var operation := operations[|operations| - 1];
      MultiplicativeOperationListLines(operations[..|operations| - 1], level)
      + [Line(level, "(operator " + operation.op + ")")] + UnaryLines(operation.rhs, level)
  }

  /** One "(operator op)" line per prefix operator, in order. */
  function OperatorLines(operators: seq<string>, level: nat): (r: seq<string>)
    ensures AllIndented(r, level)
  {
    if operators == [] then []
    else OperatorLines(operators[..|operators| - 1], level) + [Line(level, "(operator " + operators[|operators| - 1] + ")")]
  }

  function UnaryLines(e: UnaryExpression, level: nat): (r: seq<string>)
    ensures AllIndented(r, level)
    decreases e, 0
  {
    Section(level, "(UnaryExpression",
            OperatorLines(e.operators, level + INDENT_STEP) + PostfixLines(e.rhs, level + INDENT_STEP))
  }

  function PostfixLines(e: PostfixExpression, level: nat): (r: seq<string>)
    ensures AllIndented(r, level)
    decreases e, 0
  {
    Section(level, "(PostfixExpression", LhsLines(e.lhs, level + INDENT_STEP) + PostfixOperatorLines(e.op, level + INDENT_STEP))
  }

  /** An "(operator op)" line for a postfix operator; nothing when there is none. */
  function PostfixOperatorLines(op: Option<string>, level: nat): (r: seq<string>)
    ensures AllIndented(r, level)
  {
    match op
    case Some(o) => [Line(level, "(operator " + o + ")")]
    case None => []
  }

  function LhsLines(e: LhsExpression, level: nat): (r: seq<string>)
    ensures AllIndented(r, level)
    decreases e, 1
  {
    Section(level, "(LhsExpression", LhsBodyLines(e, level + INDENT_STEP))
  }

  function LhsBodyLines(e: LhsExpression, level: nat): (r: seq<string>)
    ensures AllIndented(r, level)
    decreases e, 0
  {
    match e
    case Call(_) => [Line(level, "(CallExpression)")]
    case New(n) => NewLines(n, level)
  }

  function NewLines(e: NewExpression, level: nat): (r: seq<string>)
    ensures AllIndented(r, level)
    decreases e, 0
  {
    Section(level, "(NewExpression",
            OperatorLines(e.operators, level + INDENT_STEP) + MemberLines(e.member, level + INDENT_STEP))
  }

  function MemberLines(e: MemberExpression, level: nat): (r: seq<string>)
    ensures AllIndented(r, level)
    decreases e, 2
  {
    Section(level, "(MemberExpression", MemberBodyLines(e, level + INDENT_STEP))
  }

  function MemberBodyLines(e: MemberExpression, level: nat): (r: seq<string>)
    ensures AllIndented(r, level)
    decreases e, 1
  {
    match e
    case MemberAccess(_, _) => MemberAccessLines(e, level)
    case Instantiation(_, _) => InstantiationLines(e, level)
  }

  /** "(member " with the member, then "(modifiers " with one placeholder line per modifier, only when there are modifiers. */
  function MemberAccessLines(e: MemberExpression, level: nat): (r: seq<string>)
    requires e.MemberAccess?
    ensures AllIndented(r, level)
    decreases e, 0
  {
    var next := level + INDENT_STEP;
    Section(level, "(MemberAccess",
            Section(next, "(member ", MemberOptionsLines(e.member, next + INDENT_STEP))
            + ModifiersLines(e.modifiers, next))
  }

  /** The "(modifiers " section, with one placeholder line per modifier; nothing when there are none. */
  function ModifiersLines(modifiers: seq<MemberModifier>, level: nat): (r: seq<string>)
    ensures AllIndented(r, level)
  {
    if modifiers == [] then []
    else Section(level, "(modifiers ", ModifierListLines(modifiers, level + INDENT_STEP))
  }

  function ModifierListLines(modifiers: seq<MemberModifier>, level: nat): (r: seq<string>)
    ensures AllIndented(r, level)
  {
    if modifiers == [] then []
    else ModifierListLines(modifiers[..|modifiers| - 1], level) + [Line(level, "(MemberModifier)")]
  }

  /** The arguments print through the statement printer, as an "(Expression " list. */
  function InstantiationLines(e: MemberExpression, level: nat): (r: seq<string>)
    requires e.Instantiation?
    ensures AllIndented(r, level)
    decreases e, 0
  {
    Section(level, "(Instantiation",
            MemberLines(e.target, level + INDENT_STEP) + ArgumentsLines(e.arguments, level + INDENT_STEP))
  }

  /** "(arguments " around the arguments printed as one "(Expression " list. */
  function ArgumentsLines(arguments: seq<AssignmentExpression>, level: nat): (r: seq<string>)
    ensures AllIndented(r, level)
    decreases arguments, 1
  {
    Section(level, "(arguments ",
            Section(level + INDENT_STEP, "(Expression ", AssignmentListLines(arguments, level + INDENT_STEP + INDENT_STEP)))
  }

  function MemberOptionsLines(e: MemberOptions, level: nat): (r: seq<string>)
    ensures AllIndented(r, level)
    decreases e, 1
  {
    Section(level, "(MemberOptions", MemberOptionsBodyLines(e, level + INDENT_STEP))
  }

  function MemberOptionsBodyLines(e: MemberOptions, level: nat): (r: seq<string>)
    ensures AllIndented(r, level)
    decreases e, 0
  {
    match e
    case PrimaryMember(p) => PrimaryLines(p, level)
    case FunctionMember(_) => [Line(level, "(FunctionExpression)")]
  }

  function PrimaryLines(p: PrimaryExpression, level: nat): (r: seq<string>)
    ensures AllIndented(r, level)
    decreases p, 1
  {
    Section(level, "(PrimaryExpression", PrimaryBodyLines(p, level + INDENT_STEP))
  }

  // ---------------------------------------------------------------- PrimaryExpressionPrinter

  function PrimaryBodyLines(p: PrimaryExpression, level: nat): (r: seq<string>)
    ensures AllIndented(r, level)
    decreases p, 0
  {
    match p
    case This => [Line(level, "(This)")]
    case Identifier(name) => [Line(level, "(identifier " + name + ")")]
    case LiteralValue(l) => [Line(level, "(literal " + LiteralText(l) + ")")]
    case Grouped(e) => ExpressionLines(e, level)
  }

  // ---------------------------------------------------------------- properties

  /** The digits printed for a number read back, by the lexer's digit-string value, as that number. */
  lemma {:induction false} DecimalTextValue(n: nat)
    ensures forall k :: 0 <= k < |DecimalText(n)| ==> Lexical.IsDigit(DecimalText(n)[k])
    ensures Lexical.DecimalValue(DecimalText(n)) == n
  {
    var t := DecimalText(n);
    if n < 10 {
      assert t[..0] == [];
      assert Lexical.Digit(DigitChar(n)) == n;
    } else {
      DecimalTextValue(n / 10);
      assert t[..|t| - 1] == DecimalText(n / 10);
      assert Lexical.Digit(DigitChar(n % 10)) == n % 10;
    }
  }

  /** A non-negative 32-bit integer literal, as printed, is lexed back as the same literal with nothing left over. */
  lemma PrintedIntegerRelexes(n: nat)
    requires n <= Lexical.MaxInt32
    ensures Lexical.NumericLiteralToken(LiteralText(NumericLiteral(IntNum(n)))) == Some((IntNum(n), ""))
  {
    var t := DecimalText(n);
    DecimalTextValue(n);
    assert Lexical.SkipSpace(t) == t;
    assert Lexical.DigitRun(t) == |t|;
    assert t[..|t|] == t;
  }

  lemma AllIndentedConcat(a: seq<string>, b: seq<string>, level: nat)
    requires AllIndented(a, level) && AllIndented(b, level)
    ensures AllIndented(a + b, level)
  {
  }

  /** Lines whose texts start with something other than a space are equal only when their indentations and texts are. */
  lemma {:induction false} LinesDiffer(l1: nat, t1: string, l2: nat, t2: string)
    requires t1 != [] && t1[0] != ' ' && t2 != [] && t2[0] != ' '
    ensures Line(l1, t1) == Line(l2, t2) <==> l1 == l2 && t1 == t2
  {
    if l1 < l2 {
      assert Line(l1, t1)[l1] != Line(l2, t2)[l1];
    } else if l2 < l1 {
      assert Line(l1, t1)[l2] != Line(l2, t2)[l2];
    } else {
      assert Line(l1, t1)[l1..] == t1 && Line(l2, t2)[l2..] == t2;
    }
  }

  /** A line at `level` is not among lines that are all indented deeper. */
  lemma {:induction false} NotAmongDeeper(level: nat, text: string, lines: seq<string>, deeper: nat)
    requires text != [] && text[0] != ' ' && deeper > level && AllIndented(lines, deeper)
    ensures Line(level, text) !in lines
  {
    forall k | 0 <= k < |lines|
      ensures lines[k] != Line(level, text)
    {
      assert lines[k][level] == ' ' && Line(level, text)[level] == text[0];
    }
  }

  /** Among a section's lines, the only ones at the section's own indentation are its title and its closer. */
  lemma {:induction false} SectionLineAtLevel(level: nat, title: string, inner: seq<string>, deeper: nat, text: string)
    requires title != [] && title[0] != ' ' && text != [] && text[0] != ' '
    requires deeper > level && AllIndented(inner, deeper)
    ensures Line(level, text) in Section(level, title, inner) <==> text == title || text == ")"
  {
    LinesDiffer(level, text, level, title);
    LinesDiffer(level, text, level, ")");
    NotAmongDeeper(level, text, inner, deeper);
  }

  /** A line one step deeper than a section's frame is among the section's lines exactly when it is among its inner lines. */
  lemma {:induction false} NestedLine(level: nat, title: string, inner: seq<string>, text: string)
    requires title != [] && title[0] != ' ' && text != [] && text[0] != ' '
    ensures Line(level + INDENT_STEP, text) in Section(level, title, inner) <==> Line(level + INDENT_STEP, text) in inner
  {
    LinesDiffer(level + INDENT_STEP, text, level, title);
    LinesDiffer(level + INDENT_STEP, text, level, ")");
  }

  /** At its own indentation, a framed expression shows only its title and its closer. */
  lemma {:induction false} ExpressionSectionLine(title: string, e: Expression, level: nat, text: string)
    requires title != [] && title[0] != ' ' && text != [] && text[0] != ' '
    ensures Line(level, text) in ExpressionSectionLines(title, e, level) <==> text == title || text == ")"
  {
    SectionLineAtLevel(level, title, ExpressionLines(e, level + INDENT_STEP), level + INDENT_STEP, text);
  }

  /** At its own indentation, a framed statement shows only its title and its closer. */
  lemma {:induction false} StatementSectionLine(title: string, statement: Statement, level: nat, text: string)
    requires title != [] && title[0] != ' ' && text != [] && text[0] != ' '
    ensures Line(level, text) in StatementSectionLines(title, statement, level) <==> text == title || text == ")"
  {
    SectionLineAtLevel(level, title, StatementLines(statement, level + INDENT_STEP), level + INDENT_STEP, text);
  }

  /** An optional part prints, at its own indentation, its title and closer when present and nothing otherwise. */
  lemma {:induction false} OptionalPartLine(part: Option<Expression>, title: string, level: nat, text: string)
    requires title != [] && title[0] != ' ' && text != [] && text[0] != ' '
    ensures Line(level, text) in OptionalExpressionLines(part, title, level) <==> part.Some? && (text == title || text == ")")
  {
    if part.Some? {
      ExpressionSectionLine(title, part.value, level, text);
    }
  }

  /** The statements of a list sit at the list's indentation: there, only "(Statement " and ")" lines appear, and both do when the list is not empty. */
  lemma {:induction false} StatementListLineAtLevel(list: seq<Statement>, level: nat, text: string)
    requires text != [] && text[0] != ' '
    ensures Line(level, text) in StatementListLines(list, level) <==> list != [] && (text == "(Statement " || text == ")")
    decreases |list|
  {
    if list != [] {
      StatementListLineAtLevel(list[..|list| - 1], level, text);
      SectionLineAtLevel(level, "(Statement ", StatementBodyLines(list[|list| - 1], level + INDENT_STEP),
                         level + INDENT_STEP, text);
    }
  }

  /** The cases of a switch sit at one indentation: there, only "(Case" and ")" lines appear, and both do when there is a case. */
  lemma {:induction false} CaseListLineAtLevel(clauses: seq<Case>, level: nat, text: string)
    requires text != [] && text[0] != ' '
    ensures Line(level, text) in CaseListLines(clauses, level) <==> clauses != [] && (text == "(Case" || text == ")")
    decreases |clauses|
  {
    if clauses != [] {
      var clause := clauses[|clauses| - 1];
      var next := level + INDENT_STEP;
      var condition := ExpressionSectionLines("(match", clause.matchClause, next);
      var statements := StatementListLines(clause.statements, next);
      AllIndentedConcat(condition, statements, next);
      assert CaseLines(clause, level) == Section(level, "(Case", condition + statements);
      CaseListLineAtLevel(clauses[..|clauses| - 1], level, text);
      SectionLineAtLevel(level, "(Case", condition + statements, next, text);
    }
  }

  /** An if statement prints its condition and its true clause, and a "(false_clause " section exactly when it has an else branch. */
  lemma {:induction false} IfParts(x: If, level: nat, text: string)
    requires text != [] && text[0] != ' ' && text != ")"
    ensures Line(level + INDENT_STEP, text) in IfLines(x, level) <==>
              text == "(condition " || text == "(true_clause " || (text == "(false_clause " && x.falseClause.Some?)
  {
    var next := level + INDENT_STEP;
    NestedLine(level, "(If ", ExpressionSectionLines("(condition ", x.condition, next)
                              + StatementSectionLines("(true_clause ", x.trueClause, next)
                              + ElseLines(x.falseClause, next), text);
    ExpressionSectionLine("(condition ", x.condition, next, text);
    StatementSectionLine("(true_clause ", x.trueClause, next, text);
    if x.falseClause.Some? {
      StatementSectionLine("(false_clause ", x.falseClause.value, next, text);
    }
  }

  /** A for loop prints an "(initialization ", "(condition " or "(action " section exactly when it has that part, and always its body. */
  lemma {:induction false} ForParts(x: For, level: nat, text: string)
    requires text != [] && text[0] != ' ' && text != ")"
    ensures Line(level + INDENT_STEP, text) in ForLines(x, level) <==>
              || (text == "(initialization " && x.initialization.Some?)
              || (text == "(condition " && x.condition.Some?)
              || (text == "(action " && x.action.Some?)
              || text == "(body "
  {
    var next := level + INDENT_STEP;
    NestedLine(level, "(For ", ForBodyLines(x, next), text);
    OptionalPartLine(x.initialization, "(initialization ", next, text);
    OptionalPartLine(x.condition, "(condition ", next, text);
    OptionalPartLine(x.action, "(action ", next, text);
    StatementSectionLine("(body ", x.statement, next, text);
  }

  /** A switch prints its condition, its cases when it has any, and a "(Default" section exactly when it has a default clause. */
  lemma {:induction false} SwitchParts(x: Switch, level: nat, text: string)
    requires text != [] && text[0] != ' ' && text != ")"
    ensures Line(level + INDENT_STEP, text) in SwitchLines(x, level) <==>
              || text == "(condition"
              || (text == "(Case" && (x.clauses != [] || x.otherClauses != []))
              || (text == "(Default" && x.defaultClause.Some?)
  {
    var next := level + INDENT_STEP;
    NestedLine(level, "(Switch", SwitchBodyLines(x, next), text);
    ExpressionSectionLine("(condition", x.condition, next, text);
    CaseListLineAtLevel(x.clauses, next, text);
    DefaultLine(x.defaultClause, next, text);
    CaseListLineAtLevel(x.otherClauses, next, text);
  }

  /** At its own indentation, a default clause shows only its title and its closer, and nothing when there is none. */
  lemma {:induction false} DefaultLine(defaultClause: Option<StatementList>, level: nat, text: string)
    requires text != [] && text[0] != ' '
    ensures Line(level, text) in DefaultLines(defaultClause, level) <==> defaultClause.Some? && (text == "(Default" || text == ")")
  {
    if defaultClause.Some? {
      SectionLineAtLevel(level, "(Default", StatementListLines(defaultClause.value.statements, level + INDENT_STEP),
                         level + INDENT_STEP, text);
    }
  }

  /** A try statement prints its statements, and a "(Catch" or "(Finally" section exactly when it has that block. */
  lemma {:induction false} TryParts(x: Try, level: nat, text: string)
    requires text != [] && text[0] != ' ' && text != ")"
    ensures Line(level + INDENT_STEP, text) in TryLines(x, level) <==>
              || (text == "(Statement " && x.statements != [])
              || (text == "(Catch" && x.catchBlock.Some?)
              || (text == "(Finally" && x.finallyBlock.Some?)
  {
    var next := level + INDENT_STEP;
    NestedLine(level, "(Try", StatementListLines(x.statements, next)
                              + CatchLines(x.catchBlock, next)
                              + FinallyLines(x.finallyBlock, next), text);
    StatementListLineAtLevel(x.statements, next, text);
    CatchLine(x.catchBlock, next, text);
    FinallyLine(x.finallyBlock, next, text);
  }

  /** At its own indentation, a catch block shows only its title and its closer, and nothing when there is none. */
  lemma {:induction false} CatchLine(catchBlock: Option<Catch>, level: nat, text: string)
    requires text != [] && text[0] != ' '
    ensures Line(level, text) in CatchLines(catchBlock, level) <==> catchBlock.Some? && (text == "(Catch" || text == ")")
  {
    if catchBlock.Some? {
      var c := catchBlock.value;
      var name := [Line(level + INDENT_STEP, "(exception_name " + c.exceptionName + ")")];
      var statements := StatementListLines(c.statements, level + INDENT_STEP);
      AllIndentedConcat(name, statements, level + INDENT_STEP);
      SectionLineAtLevel(level, "(Catch", name + statements, level + INDENT_STEP, text);
    }
  }

  /** At its own indentation, a finally block shows only its title and its closer, and nothing when there is none. */
  lemma {:induction false} FinallyLine(finallyBlock: Option<StatementList>, level: nat, text: string)
    requires text != [] && text[0] != ' '
    ensures Line(level, text) in FinallyLines(finallyBlock, level) <==> finallyBlock.Some? && (text == "(Finally" || text == ")")
  {
    if finallyBlock.Some? {
      SectionLineAtLevel(level, "(Finally", StatementListLines(finallyBlock.value.statements, level + INDENT_STEP),
                         level + INDENT_STEP, text);
    }
  }

  /** A conditional expression prints its condition, and the two clause sections exactly when it is a ternary. */
  lemma {:induction false} ConditionalParts(e: ConditionalExpression, level: nat, text: string)
    requires text != [] && text[0] != ' ' && text != ")"
    ensures Line(level + INDENT_STEP, text) in ConditionalLines(e, level) <==>
              || text == "(LogicalOrExpression"
              || ((text == "(true_clause" || text == "(false_clause") && e.clauses.Some?)
  {
    var next := level + INDENT_STEP;
    NestedLine(level, "(ConditionalExpression", LogicalOrLines(e.lhs, next) + ClausesLines(e.clauses, next), text);
    LogicalOrLine(e.lhs, next, text);
    ClausesLine(e.clauses, next, text);
  }

  /** At its own indentation, a logical or expression shows only its title and its closer. */
  lemma {:induction false} LogicalOrLine(e: LogicalOrExpression, level: nat, text: string)
    requires text != [] && text[0] != ' '
    ensures Line(level, text) in LogicalOrLines(e, level) <==> text == "(LogicalOrExpression" || text == ")"
  {
    var head := LogicalAndLines(e.lhs, level + INDENT_STEP);
    var tail := LogicalAndListLines(e.operations, level + INDENT_STEP);
    AllIndentedConcat(head, tail, level + INDENT_STEP);
    SectionLineAtLevel(level, "(LogicalOrExpression", head + tail, level + INDENT_STEP, text);
  }

  /** At their own indentation, the clauses of a ternary show only their titles and closers, and nothing for a plain operand. */
  lemma {:induction false} ClausesLine(clauses: Option<ConditionalClauses>, level: nat, text: string)
    requires text != [] && text[0] != ' '
    ensures Line(level, text) in ClausesLines(clauses, level) <==>
              clauses.Some? && (text == "(true_clause" || text == "(false_clause" || text == ")")
  {
    if clauses.Some? {
      var c := clauses.value;
      SectionLineAtLevel(level, "(true_clause", AssignmentLines(c.trueClause, level + INDENT_STEP), level + INDENT_STEP, text);
      SectionLineAtLevel(level, "(false_clause", AssignmentLines(c.falseClause, level + INDENT_STEP), level + INDENT_STEP, text);
    }
  }

  /** A postfix expression prints its operand, and an "(operator op)" line exactly when it has a postfix operator. */
  lemma {:induction false} PostfixParts(e: PostfixExpression, level: nat, text: string)
    requires text != [] && text[0] != ' ' && text != ")"
    ensures Line(level + INDENT_STEP, text) in PostfixLines(e, level) <==>
              text == "(LhsExpression" || (e.op.Some? && text == "(operator " + e.op.value + ")")
  {
    var next := level + INDENT_STEP;
    NestedLine(level, "(PostfixExpression", LhsLines(e.lhs, next) + PostfixOperatorLines(e.op, next), text);
    SectionLineAtLevel(next, "(LhsExpression", LhsBodyLines(e.lhs, next + INDENT_STEP), next + INDENT_STEP, text);
    if e.op.Some? {
      LinesDiffer(next, text, next, "(operator " + e.op.value + ")");
    }
  }

  /** A member access prints its member, and a "(modifiers " section exactly when it has modifiers. */
  lemma {:induction false} MemberAccessParts(e: MemberExpression, level: nat, text: string)
    requires e.MemberAccess?
    requires text != [] && text[0] != ' ' && text != ")"
    ensures Line(level + INDENT_STEP, text) in MemberAccessLines(e, level) <==>
              text == "(member " || (text == "(modifiers " && e.modifiers != [])
  {
    var next := level + INDENT_STEP;
    var member := MemberOptionsLines(e.member, next + INDENT_STEP);
    NestedLine(level, "(MemberAccess", Section(next, "(member ", member) + ModifiersLines(e.modifiers, next), text);
    SectionLineAtLevel(next, "(member ", member, next + INDENT_STEP, text);
    if e.modifiers != [] {
      SectionLineAtLevel(next, "(modifiers ", ModifierListLines(e.modifiers, next + INDENT_STEP), next + INDENT_STEP, text);
    }
  }

  /** A variable declaration prints its name, and its initializer exactly when it has one. */
  lemma {:induction false} VarDeclarationParts(declaration: VarDeclaration, level: nat, text: string)
    requires text != [] && text[0] != ' ' && text != ")"
    ensures Line(level + INDENT_STEP, text) in VarDeclarationLines(declaration, level) <==>
              text == "(name " + declaration.name + ")"
              || (text == "(AssignmentExpression" && declaration.assignment.Some?)
  {
    var next := level + INDENT_STEP;
    var name := Line(next, "(name " + declaration.name + ")");
    NestedLine(level, "(Var", [name] + InitializerLines(declaration.assignment, next), text);
    LinesDiffer(next, text, next, "(name " + declaration.name + ")");
    if declaration.assignment.Some? {
      AssignmentLine(declaration.assignment.value, next, text);
    }
  }

  /** At its own indentation, an assignment expression shows only its title and its closer. */
  lemma {:induction false} AssignmentLine(e: AssignmentExpression, level: nat, text: string)
    requires text != [] && text[0] != ' '
    ensures Line(level, text) in AssignmentLines(e, level) <==> text == "(AssignmentExpression" || text == ")"
  {
    var operations := AssignmentOperationListLines(e.assignments, level + INDENT_STEP);
    var rhs := ConditionalLines(e.rhs, level + INDENT_STEP);
    AllIndentedConcat(operations, rhs, level + INDENT_STEP);
    SectionLineAtLevel(level, "(AssignmentExpression", operations + rhs, level + INDENT_STEP, text);
  }
}
