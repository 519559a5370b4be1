/**
 * The kunjs AST printer (src/kunjs/printer.cc) as it runs.  The visitors
 * ASTPrinter, StatementPrinter, ExpressionPrinter and
 * PrimaryExpressionPrinter write lines to the standard output, which is a
 * Console here whose lines the printing methods append to.  A visitor object
 * holds nothing but its indentation, so each handler is a method taking the
 * indentation as an argument.  Every method promises to append exactly the
 * lines that the matching function of PrinterLines gives for the node, so
 * all that is proved about those functions holds for what is printed.
 */
module Printer {
  import opened Wrappers
  import opened Ast
  import opened PrinterLines

  /** The standard output, as the lines written to it so far. */
  class Console {
    var lines: seq<string>

    constructor ()
      ensures lines == []
    {
      lines := [];
    }

    /** `std::cout << text << std::endl`. */
    method WriteLine(text: string)
      modifies this
      ensures lines == old(lines) + [text]
    {
      lines := lines + [text];
    }
  }

  /** `Indent(level)`: appends one space per step of a counting loop. */
  method Indent(level: int) returns (result: string)
    ensures result == Spaces(level)
    ensures |result| == if level < 0 then 0 else level
  {
    result := "";
    var i := 0;
    while i < level
      invariant 0 <= i && (i <= level || i == 0)
      invariant result == Spaces(i)
    {
      result := result + " ";
      i := i + 1;
    }
  }


  /** `std::cout << Indent(level) << text << std::endl`. */
  method Emit(out: Console, level: nat, text: string)
    modifies out
    ensures out.lines == old(out.lines) + [Line(level, text)]
  {
    var indent := Indent(level);
    out.WriteLine(indent + text);
  }

  /** What a method has written, extended by one more part, regrouped around the node's inner lines. */
  lemma Regroup<T>(head: seq<T>, inner: seq<T>, part: seq<T>)
    ensures head + inner + part == head + (inner + part)
  {
  }

  /** A title line, the inner lines and a closing line, written one after the other, make up a section. */
  lemma Framed(before: seq<string>, level: nat, title: string, inner: seq<string>)
    ensures before + [Line(level, title)] + inner + [Line(level, ")")] == before + Section(level, title, inner)
  {
  }

  // ---------------------------------------------------------------- ASTPrinter

  method PrintProgram(out: Console, program: Program, level: nat)
    modifies out
    ensures out.lines == old(out.lines) + ProgramLines(program, level)
    decreases program, 1
  {
    Emit(out, level, "(Program ");
    PrintSourceElementList(out, program, level + INDENT_STEP);
    Emit(out, level, ")");
    Framed(old(out.lines), level, "(Program ", SourceElementListLines(program, level + INDENT_STEP));
  }

  /** `std::for_each` over the source elements with one printer. */
  method PrintSourceElementList(out: Console, elements: seq<SourceElement>, level: nat)
    modifies out
    ensures out.lines == old(out.lines) + SourceElementListLines(elements, level)
    decreases elements, 0
  {
    var i := 0;
    while i < |elements|
      invariant 0 <= i <= |elements|
      invariant out.lines == old(out.lines) + SourceElementListLines(elements[..i], level)
    {
      PrintSourceElement(out, elements[i], level);
      assert elements[..i + 1][..i] == elements[..i];
      Regroup(old(out.lines), SourceElementListLines(elements[..i], level), SourceElementLines(elements[i], level));
      i := i + 1;
    }
    assert elements[..i] == elements;
  }

  method PrintSourceElement(out: Console, element: SourceElement, level: nat)
    modifies out
    ensures out.lines == old(out.lines) + SourceElementLines(element, level)
    decreases element, 1
  {
    Emit(out, level, "(SourceElement ");
    PrintSourceElementBody(out, element, level + INDENT_STEP);
    Emit(out, level, ")");
    Framed(old(out.lines), level, "(SourceElement ", SourceElementBodyLines(element, level + INDENT_STEP));
  }

  method PrintSourceElementBody(out: Console, element: SourceElement, level: nat)
    modifies out
    ensures out.lines == old(out.lines) + SourceElementBodyLines(element, level)
    decreases element, 0
  {
    match element
    case FunctionElement(_) => Emit(out, level, "(FunctionDeclaration)");
    case StatementElement(statement) => PrintStatement(out, statement, level);
  }

  /** `std::for_each` over a statement list with one printer. */
  method PrintStatementList(out: Console, list: seq<Statement>, level: nat)
    modifies out
    ensures out.lines == old(out.lines) + StatementListLines(list, level)
    decreases list, 0
  {
    var i := 0;
    while i < |list|
      invariant 0 <= i <= |list|
      invariant out.lines == old(out.lines) + StatementListLines(list[..i], level)
    {
      PrintStatement(out, list[i], level);
      assert list[..i + 1][..i] == list[..i];
      Regroup(old(out.lines), StatementListLines(list[..i], level), StatementLines(list[i], level));
      i := i + 1;
    }
    assert list[..i] == list;
  }

  method PrintStatement(out: Console, statement: Statement, level: nat)
    modifies out
    ensures out.lines == old(out.lines) + StatementLines(statement, level)
    decreases statement, 2
  {
    Emit(out, level, "(Statement ");
    PrintStatementBody(out, statement, level + INDENT_STEP);
    Emit(out, level, ")");
    Framed(old(out.lines), level, "(Statement ", StatementBodyLines(statement, level + INDENT_STEP));
  }

  /** A title line, a statement one step deeper, a closing line: the frame of a loop body or an if clause. */
  method PrintStatementSection(out: Console, title: string, statement: Statement, level: nat)
    modifies out
    ensures out.lines == old(out.lines) + StatementSectionLines(title, statement, level)
    decreases statement, 3
  {
    Emit(out, level, title);
    PrintStatement(out, statement, level + INDENT_STEP);
    Emit(out, level, ")");
    Framed(old(out.lines), level, title, StatementLines(statement, level + INDENT_STEP));
  }

  // ---------------------------------------------------------------- StatementPrinter

  /** `boost::apply_visitor` with a StatementPrinter: one handler per alternative. */
  method PrintStatementBody(out: Console, statement: Statement, level: nat)
    modifies out
    ensures out.lines == old(out.lines) + StatementBodyLines(statement, level)
    decreases statement, 1
  {
    if IsBranching(statement) {
      PrintBranching(out, statement, level);
    } else if IsForLoop(statement) {
      PrintForLoop(out, statement, level);
    } else if IsCompound(statement) {
      PrintCompound(out, statement, level);
    } else if IsJump(statement) {
      PrintJumpStatement(out, statement, level);
    } else {
      PrintSimpleStatement(out, statement, level);
    }
  }

  method PrintBranching(out: Console, statement: Statement, level: nat)
    requires IsBranching(statement)
    modifies out
    ensures out.lines == old(out.lines) + BranchingLines(statement, level)
    decreases statement, 0
  {
    if statement.IfStatement? {
      PrintIf(out, statement.ifStatement, level);
    } else if statement.DoWhileStatement? {
      PrintDoWhile(out, statement.doWhile, level);
    } else {
      PrintWhile(out, statement.whileStatement, level);
    }
  }

  method PrintForLoop(out: Console, statement: Statement, level: nat)
    requires IsForLoop(statement)
    modifies out
    ensures out.lines == old(out.lines) + ForLoopLines(statement, level)
    decreases statement, 0
  {
    if statement.ForStatement? {
      PrintFor(out, statement.forStatement, level);
    } else if statement.ForWithVarStatement? {
      PrintForWithVar(out, statement.forWithVar, level);
    } else if statement.ForeachStatement? {
      PrintForeach(out, statement.foreach, level);
    } else {
      PrintForeachWithVar(out, statement.foreachWithVar, level);
    }
  }

  method PrintCompound(out: Console, statement: Statement, level: nat)
    requires IsCompound(statement)
    modifies out
    ensures out.lines == old(out.lines) + CompoundLines(statement, level)
    decreases statement, 0
  {
    if statement.WithStatement? {
      PrintWith(out, statement.with, level);
    } else if statement.Labelled? {
      PrintLabelled(out, statement.labelled, level);
    } else if statement.SwitchStatement? {
      PrintSwitch(out, statement.switch, level);
    } else {
      PrintTry(out, statement.try, level);
    }
  }

  method PrintJumpStatement(out: Console, statement: Statement, level: nat)
    requires IsJump(statement)
    modifies out
    ensures out.lines == old(out.lines) + JumpStatementLines(statement, level)
    decreases statement, 0
  {
    if statement.Continue? {
      PrintJump(out, "Continue", statement.labelName, level);
    } else if statement.Break? {
      PrintJump(out, "Break", statement.labelName, level);
    } else if statement.Return? {
      PrintReturn(out, statement.result, level);
    } else {
      PrintThrow(out, statement.thrown, level);
    }
  }

  method PrintSimpleStatement(out: Console, statement: Statement, level: nat)
    requires !IsBranching(statement) && !IsForLoop(statement) && !IsCompound(statement) && !IsJump(statement)
    modifies out
    ensures out.lines == old(out.lines) + SimpleStatementLines(statement, level)
    decreases statement, 0
  {
    if statement.ExpressionStatement? {
      PrintExpression(out, statement.expression, level);
    } else if statement.VarStatement? {
      PrintVar(out, statement.declarations, level);
    } else if statement.Noop? {
      Emit(out, level, "(Empty)");
    } else if statement.Debugger? {
      Emit(out, level, "(Debugger)");
    } else {
      PrintStatementList(out, statement.statements, level);
    }
  }

  method PrintExpression(out: Console, e: Expression, level: nat)
    modifies out
    ensures out.lines == old(out.lines) + ExpressionLines(e, level)
    decreases e, 0
  {
    var next := level + INDENT_STEP;
    Emit(out, level, "(Expression ");
    ghost var head := out.lines;
    PrintAssignment(out, e.head, next);
    ghost var first := AssignmentLines(e.head, next);
    var i := 0;
    while i < |e.tail|
      invariant 0 <= i <= |e.tail|
      invariant out.lines == head + (first + AssignmentListLines(e.tail[..i], next))
    {
      PrintAssignment(out, e.tail[i], next);
      assert e.tail[..i + 1][..i] == e.tail[..i];
      Regroup(head, first + AssignmentListLines(e.tail[..i], next), AssignmentLines(e.tail[i], next));
      Regroup(first, AssignmentListLines(e.tail[..i], next), AssignmentLines(e.tail[i], next));
      i := i + 1;
    }
    assert e.tail[..i] == e.tail;
    Emit(out, level, ")");
    Framed(old(out.lines), level, "(Expression ", first + AssignmentListLines(e.tail, next));
  }

  /** A title line, an expression one step deeper, a closing line: the frame of a condition or a loop part. */
  method PrintExpressionSection(out: Console, title: string, e: Expression, level: nat)
    modifies out
    ensures out.lines == old(out.lines) + ExpressionSectionLines(title, e, level)
    decreases e, 1
  {
    Emit(out, level, title);
    PrintExpression(out, e, level + INDENT_STEP);
    Emit(out, level, ")");
    Framed(old(out.lines), level, title, ExpressionLines(e, level + INDENT_STEP));
  }

  method PrintVar(out: Console, v: Var, level: nat)
    modifies out
    ensures out.lines == old(out.lines) + VarLines(v, level)
    decreases v, 0
  {
    PrintVarDeclaration(out, v.head, level);
    ghost var head := out.lines;
    var i := 0;
    while i < |v.tail|
      invariant 0 <= i <= |v.tail|
      invariant out.lines == head + VarDeclarationListLines(v.tail[..i], level)
    {
      PrintVarDeclaration(out, v.tail[i], level);
      assert v.tail[..i + 1][..i] == v.tail[..i];
      Regroup(head, VarDeclarationListLines(v.tail[..i], level), VarDeclarationLines(v.tail[i], level));
      i := i + 1;
    }
    assert v.tail[..i] == v.tail;
    Regroup(old(out.lines), VarDeclarationLines(v.head, level), VarDeclarationListLines(v.tail, level));
  }

  method PrintVarDeclaration(out: Console, declaration: VarDeclaration, level: nat)
    modifies out
    ensures out.lines == old(out.lines) + VarDeclarationLines(declaration, level)
    decreases declaration, 0
  {
    var next := level + INDENT_STEP;
    Emit(out, level, "(Var");
    ghost var head := out.lines;
    Emit(out, next, "(name " + declaration.name + ")");
    ghost var name := [Line(next, "(name " + declaration.name + ")")];
    PrintInitializer(out, declaration.assignment, next);
    Regroup(head, name, InitializerLines(declaration.assignment, next));
    Emit(out, level, ")");
    Framed(old(out.lines), level, "(Var", name + InitializerLines(declaration.assignment, next));
  }

  method PrintInitializer(out: Console, assignment: Option<AssignmentExpression>, level: nat)
    modifies out
    ensures out.lines == old(out.lines) + InitializerLines(assignment, level)
    decreases assignment, 0
  {
    if assignment.Some? {
      PrintAssignment(out, assignment.value, level);
    } else {
      assert old(out.lines) + [] == old(out.lines);
    }
  }

  method PrintIf(out: Console, x: If, level: nat)
    modifies out
    ensures out.lines == old(out.lines) + IfLines(x, level)
    decreases x, 0
  {
    var next := level + INDENT_STEP;
    Emit(out, level, "(If ");
    ghost var head := out.lines;
    PrintExpressionSection(out, "(condition ", x.condition, next);
    ghost var condition := ExpressionSectionLines("(condition ", x.condition, next);
    PrintStatementSection(out, "(true_clause ", x.trueClause, next);
    ghost var trueClause := StatementSectionLines("(true_clause ", x.trueClause, next);
    Regroup(head, condition, trueClause);
    PrintElse(out, x.falseClause, next);
    Regroup(head, condition + trueClause, ElseLines(x.falseClause, next));
    Emit(out, level, ")");
    Framed(old(out.lines), level, "(If ", condition + trueClause + ElseLines(x.falseClause, next));
  }

  method PrintElse(out: Console, falseClause: Option<Statement>, level: nat)
    modifies out
    ensures out.lines == old(out.lines) + ElseLines(falseClause, level)
    decreases falseClause, 0
  {
    if falseClause.Some? {
      PrintStatementSection(out, "(false_clause ", falseClause.value, level);
    } else {
      assert old(out.lines) + [] == old(out.lines);
    }
  }

  method PrintDoWhile(out: Console, x: DoWhile, level: nat)
    modifies out
    ensures out.lines == old(out.lines) + DoWhileLines(x, level)
    decreases x, 0
  {
    var next := level + INDENT_STEP;
    Emit(out, level, "(DoWhile ");
    ghost var head := out.lines;
    PrintStatementSection(out, "(body ", x.statement, next);
    ghost var body := StatementSectionLines("(body ", x.statement, next);
    PrintExpressionSection(out, "(condition ", x.condition, next);
    ghost var condition := ExpressionSectionLines("(condition ", x.condition, next);
    Regroup(head, body, condition);
    Emit(out, level, ")");
    Framed(old(out.lines), level, "(DoWhile ", body + condition);
  }

  method PrintWhile(out: Console, x: While, level: nat)
    modifies out
    ensures out.lines == old(out.lines) + WhileLines(x, level)
    decreases x, 0
  {
    var next := level + INDENT_STEP;
    Emit(out, level, "(While ");
    ghost var head := out.lines;
    PrintExpressionSection(out, "(condition ", x.condition, next);
    ghost var condition := ExpressionSectionLines("(condition ", x.condition, next);
    PrintStatementSection(out, "(body ", x.statement, next);
    ghost var body := StatementSectionLines("(body ", x.statement, next);
    Regroup(head, condition, body);
    Emit(out, level, ")");
    Framed(old(out.lines), level, "(While ", condition + body);
  }

  /** An optional part of a for loop: its section when present, nothing otherwise. */
  method PrintOptionalExpression(out: Console, part: Option<Expression>, title: string, level: nat)
    modifies out
    ensures out.lines == old(out.lines) + OptionalExpressionLines(part, title, level)
    decreases part, 0
  {
    if part.Some? {
      PrintExpressionSection(out, title, part.value, level);
    } else {
      assert old(out.lines) + [] == old(out.lines);
    }
  }

  method PrintFor(out: Console, x: For, level: nat)
    modifies out
    ensures out.lines == old(out.lines) + ForLines(x, level)
    decreases x, 1
  {
    Emit(out, level, "(For ");
    PrintForBody(out, x, level + INDENT_STEP);
    Emit(out, level, ")");
    Framed(old(out.lines), level, "(For ", ForBodyLines(x, level + INDENT_STEP));
  }

  method PrintForBody(out: Console, x: For, level: nat)
    modifies out
    ensures out.lines == old(out.lines) + ForBodyLines(x, level)
    decreases x, 0
  {
    PrintOptionalExpression(out, x.initialization, "(initialization ", level);
    ghost var inner := OptionalExpressionLines(x.initialization, "(initialization ", level);
    PrintOptionalExpression(out, x.condition, "(condition ", level);
    ghost var part := OptionalExpressionLines(x.condition, "(condition ", level);
    Regroup(old(out.lines), inner, part);
    inner := inner + part;
    PrintOptionalExpression(out, x.action, "(action ", level);
    part := OptionalExpressionLines(x.action, "(action ", level);
    Regroup(old(out.lines), inner, part);
    inner := inner + part;
    PrintStatementSection(out, "(body ", x.statement, level);
    part := StatementSectionLines("(body ", x.statement, level);
    Regroup(old(out.lines), inner, part);
  }

  /** One "(initialization " section around a declaration. */
  method PrintVarDeclarationSection(out: Console, title: string, declaration: VarDeclaration, level: nat)
    modifies out
    ensures out.lines == old(out.lines) + VarDeclarationSectionLines(title, declaration, level)
    decreases declaration, 1
  {
    Emit(out, level, title);
    PrintVarDeclaration(out, declaration, level + INDENT_STEP);
    Emit(out, level, ")");
    Framed(old(out.lines), level, title, VarDeclarationLines(declaration, level + INDENT_STEP));
  }

  method PrintLhsSection(out: Console, title: string, e: LhsExpression, level: nat)
    modifies out
    ensures out.lines == old(out.lines) + LhsSectionLines(title, e, level)
    decreases e, 2
  {
    Emit(out, level, title);
    PrintLhs(out, e, level + INDENT_STEP);
    Emit(out, level, ")");
    Framed(old(out.lines), level, title, LhsLines(e, level + INDENT_STEP));
  }

  method PrintForWithVar(out: Console, x: ForWithVar, level: nat)
    modifies out
    ensures out.lines == old(out.lines) + ForWithVarLines(x, level)
    decreases x, 1
  {
    Emit(out, level, "(ForWithVar ");
    PrintForWithVarBody(out, x, level + INDENT_STEP);
    Emit(out, level, ")");
    Framed(old(out.lines), level, "(ForWithVar ", ForWithVarBodyLines(x, level + INDENT_STEP));
  }

  method PrintForWithVarBody(out: Console, x: ForWithVar, level: nat)
    modifies out
    ensures out.lines == old(out.lines) + ForWithVarBodyLines(x, level)
    decreases x, 0
  {
    PrintInitializationList(out, x.initialization.Declarations(), level);
    ghost var inner := InitializationListLines(x.initialization.Declarations(), level);
    PrintOptionalExpression(out, x.condition, "(condition ", level);
    ghost var part := OptionalExpressionLines(x.condition, "(condition ", level);
    Regroup(old(out.lines), inner, part);
    inner := inner + part;
    PrintOptionalExpression(out, x.action, "(action ", level);
    part := OptionalExpressionLines(x.action, "(action ", level);
    Regroup(old(out.lines), inner, part);
    inner := inner + part;
    PrintStatementSection(out, "(body ", x.statement, level);
    part := StatementSectionLines("(body ", x.statement, level);
    Regroup(old(out.lines), inner, part);
  }

  /** One "(initialization " section per declaration, in order. */
  method PrintInitializationList(out: Console, declarations: seq<VarDeclaration>, level: nat)
    modifies out
    ensures out.lines == old(out.lines) + InitializationListLines(declarations, level)
    decreases declarations, 0
  {
    var i := 0;
    while i < |declarations|
      invariant 0 <= i <= |declarations|
      invariant out.lines == old(out.lines) + InitializationListLines(declarations[..i], level)
    {
      PrintVarDeclarationSection(out, "(initialization ", declarations[i], level);
      assert declarations[..i + 1][..i] == declarations[..i];
      Regroup(old(out.lines), InitializationListLines(declarations[..i], level), VarDeclarationSectionLines("(initialization ", declarations[i], level));
      i := i + 1;
    }
    assert declarations[..i] == declarations;
  }

  method PrintForeach(out: Console, x: Foreach, level: nat)
    modifies out
    ensures out.lines == old(out.lines) + ForeachLines(x, level)
    decreases x, 0
  {
    var next := level + INDENT_STEP;
    Emit(out, level, "(Foreach ");
    ghost var head := out.lines;
    PrintLhsSection(out, "(item ", x.item, next);
    ghost var item := LhsSectionLines("(item ", x.item, next);
    PrintExpressionSection(out, "(list ", x.list, next);
    ghost var list := ExpressionSectionLines("(list ", x.list, next);
    Regroup(head, item, list);
    PrintStatementSection(out, "(body ", x.statement, next);
    ghost var body := StatementSectionLines("(body ", x.statement, next);
    Regroup(head, item + list, body);
    Emit(out, level, ")");
    Framed(old(out.lines), level, "(Foreach ", item + list + body);
  }

  method PrintForeachWithVar(out: Console, x: ForeachWithVar, level: nat)
    modifies out
    ensures out.lines == old(out.lines) + ForeachWithVarLines(x, level)
    decreases x, 0
  {
    var next := level + INDENT_STEP;
    Emit(out, level, "(ForeachWithVar ");
    ghost var head := out.lines;
    PrintVarDeclarationSection(out, "(item ", x.item, next);
    ghost var item := VarDeclarationSectionLines("(item ", x.item, next);
    PrintExpressionSection(out, "(list ", x.list, next);
    ghost var list := ExpressionSectionLines("(list ", x.list, next);
    Regroup(head, item, list);
    PrintStatementSection(out, "(body ", x.statement, next);
    ghost var body := StatementSectionLines("(body ", x.statement, next);
    Regroup(head, item + list, body);
    Emit(out, level, ")");
    Framed(old(out.lines), level, "(ForeachWithVar ", item + list + body);
  }

  /** `continue` and `break`: "(Keyword" then either " (label L))" or ")" on the same line. */
  method PrintJump(out: Console, keyword: string, labelName: Option<string>, level: nat)
    modifies out
    ensures out.lines == old(out.lines) + [JumpLine(level, keyword, labelName)]
  {
    var indent := Indent(level);
    var start := indent + "(" + keyword;
    if labelName.Some? {
      assert start + " (label " + labelName.value + "))" == Line(level, "(" + keyword + " (label " + labelName.value + "))");
      out.WriteLine(start + " (label " + labelName.value + "))");
    } else {
      assert start + ")" == Line(level, "(" + keyword + ")");
      out.WriteLine(start + ")");
    }
  }

  method PrintReturn(out: Console, result: Option<Expression>, level: nat)
    modifies out
    ensures out.lines == old(out.lines) + ReturnLines(result, level)
    decreases result, 0
  {
    var indent := Indent(level);
    if result.Some? {
      out.WriteLine(indent + "(Return");
      PrintExpression(out, result.value, level + INDENT_STEP);
      Emit(out, level, ")");
      Framed(old(out.lines), level, "(Return", ExpressionLines(result.value, level + INDENT_STEP));
    } else {
      out.WriteLine(indent + "(Return)");
    }
  }

  method PrintWith(out: Console, x: With, level: nat)
    modifies out
    ensures out.lines == old(out.lines) + WithLines(x, level)
    decreases x, 0
  {
    var next := level + INDENT_STEP;
    Emit(out, level, "(With");
    ghost var head := out.lines;
    PrintExpressionSection(out, "(context ", x.context, next);
    ghost var context := ExpressionSectionLines("(context ", x.context, next);
    PrintStatementSection(out, "(body ", x.statement, next);
    ghost var body := StatementSectionLines("(body ", x.statement, next);
    Regroup(head, context, body);
    Emit(out, level, ")");
    Framed(old(out.lines), level, "(With", context + body);
  }

  method PrintLabelled(out: Console, x: LabelledStatement, level: nat)
    modifies out
    ensures out.lines == old(out.lines) + LabelledLines(x, level)
    decreases x, 0
  {
    var next := level + INDENT_STEP;
    Emit(out, level, "(LabelledStatement");
    ghost var head := out.lines;
    Emit(out, next, "(label " + x.labelName + ")");
    ghost var name := [Line(next, "(label " + x.labelName + ")")];
    PrintStatement(out, x.statement, next);
    Regroup(head, name, StatementLines(x.statement, next));
    Emit(out, level, ")");
    Framed(old(out.lines), level, "(LabelledStatement", name + StatementLines(x.statement, next));
  }

  method PrintCase(out: Console, clause: Case, level: nat)
    modifies out
    ensures out.lines == old(out.lines) + CaseLines(clause, level)
    decreases clause, 0
  {
    var next := level + INDENT_STEP;
    Emit(out, level, "(Case");
    ghost var head := out.lines;
    PrintExpressionSection(out, "(match", clause.matchClause, next);
    ghost var condition := ExpressionSectionLines("(match", clause.matchClause, next);
    PrintStatementList(out, clause.statements, next);
    Regroup(head, condition, StatementListLines(clause.statements, next));
    Emit(out, level, ")");
    Framed(old(out.lines), level, "(Case", condition + StatementListLines(clause.statements, next));
  }

  /** The loop over one of a switch's case lists. */
  method PrintCaseList(out: Console, clauses: seq<Case>, level: nat)
    modifies out
    ensures out.lines == old(out.lines) + CaseListLines(clauses, level)
    decreases clauses, 0
  {
    var i := 0;
    while i < |clauses|
      invariant 0 <= i <= |clauses|
      invariant out.lines == old(out.lines) + CaseListLines(clauses[..i], level)
    {
      PrintCase(out, clauses[i], level);
      assert clauses[..i + 1][..i] == clauses[..i];
      Regroup(old(out.lines), CaseListLines(clauses[..i], level), CaseLines(clauses[i], level));
      i := i + 1;
    }
    assert clauses[..i] == clauses;
  }

  method PrintSwitch(out: Console, x: Switch, level: nat)
    modifies out
    ensures out.lines == old(out.lines) + SwitchLines(x, level)
    decreases x, 1
  {
    Emit(out, level, "(Switch");
    PrintSwitchBody(out, x, level + INDENT_STEP);
    Emit(out, level, ")");
    Framed(old(out.lines), level, "(Switch", SwitchBodyLines(x, level + INDENT_STEP));
  }

  method PrintSwitchBody(out: Console, x: Switch, level: nat)
    modifies out
    ensures out.lines == old(out.lines) + SwitchBodyLines(x, level)
    decreases x, 0
  {
    PrintExpressionSection(out, "(condition", x.condition, level);
    ghost var inner := ExpressionSectionLines("(condition", x.condition, level);
    PrintCaseList(out, x.clauses, level);
    Regroup(old(out.lines), inner, CaseListLines(x.clauses, level));
    inner := inner + CaseListLines(x.clauses, level);
    PrintDefault(out, x.defaultClause, level);
    Regroup(old(out.lines), inner, DefaultLines(x.defaultClause, level));
    inner := inner + DefaultLines(x.defaultClause, level);
    PrintCaseList(out, x.otherClauses, level);
    Regroup(old(out.lines), inner, CaseListLines(x.otherClauses, level));
  }

  method PrintDefault(out: Console, defaultClause: Option<StatementList>, level: nat)
    modifies out
    ensures out.lines == old(out.lines) + DefaultLines(defaultClause, level)
    decreases defaultClause, 0
  {
    if defaultClause.Some? {
      var statements := defaultClause.value.statements;
      Emit(out, level, "(Default");
      PrintStatementList(out, statements, level + INDENT_STEP);
      Emit(out, level, ")");
      Framed(old(out.lines), level, "(Default", StatementListLines(statements, level + INDENT_STEP));
    } else {
      assert old(out.lines) + [] == old(out.lines);
    }
  }

  method PrintThrow(out: Console, e: Expression, level: nat)
    modifies out
    ensures out.lines == old(out.lines) + ExpressionSectionLines("(Throw", e, level)
    decreases e, 1
  {
    Emit(out, level, "(Throw");
    PrintExpression(out, e, level + INDENT_STEP);
    Emit(out, level, ")");
    Framed(old(out.lines), level, "(Throw", ExpressionLines(e, level + INDENT_STEP));
  }

  method PrintTry(out: Console, x: Try, level: nat)
    modifies out
    ensures out.lines == old(out.lines) + TryLines(x, level)
    decreases x, 0
  {
    var next := level + INDENT_STEP;
    Emit(out, level, "(Try");
    ghost var head := out.lines;
    PrintStatementList(out, x.statements, next);
    PrintCatch(out, x.catchBlock, next);
    Regroup(head, StatementListLines(x.statements, next), CatchLines(x.catchBlock, next));
    ghost var inner := StatementListLines(x.statements, next) + CatchLines(x.catchBlock, next);
    PrintFinally(out, x.finallyBlock, next);
    Regroup(head, inner, FinallyLines(x.finallyBlock, next));
    Emit(out, level, ")");
    Framed(old(out.lines), level, "(Try", inner + FinallyLines(x.finallyBlock, next));
  }

  method PrintCatch(out: Console, catchBlock: Option<Catch>, level: nat)
    modifies out
    ensures out.lines == old(out.lines) + CatchLines(catchBlock, level)
    decreases catchBlock, 0
  {
    if catchBlock.Some? {
      var block := catchBlock.value;
      Emit(out, level, "(Catch");
      ghost var head := out.lines;
      Emit(out, level + INDENT_STEP, "(exception_name " + block.exceptionName + ")");
      ghost var name := [Line(level + INDENT_STEP, "(exception_name " + block.exceptionName + ")")];
      PrintStatementList(out, block.statements, level + INDENT_STEP);
      Regroup(head, name, StatementListLines(block.statements, level + INDENT_STEP));
      Emit(out, level, ")");
      Framed(old(out.lines), level, "(Catch", name + StatementListLines(block.statements, level + INDENT_STEP));
    } else {
      assert old(out.lines) + [] == old(out.lines);
    }
  }

  method PrintFinally(out: Console, finallyBlock: Option<StatementList>, level: nat)
    modifies out
    ensures out.lines == old(out.lines) + FinallyLines(finallyBlock, level)
    decreases finallyBlock, 0
  {
    if finallyBlock.Some? {
      var statements := finallyBlock.value.statements;
      Emit(out, level, "(Finally");
      PrintStatementList(out, statements, level + INDENT_STEP);
      Emit(out, level, ")");
      Framed(old(out.lines), level, "(Finally", StatementListLines(statements, level + INDENT_STEP));
    } else {
      assert old(out.lines) + [] == old(out.lines);
    }
  }

  // ---------------------------------------------------------------- ExpressionPrinter

  method PrintAssignment(out: Console, e: AssignmentExpression, level: nat)
    modifies out
    ensures out.lines == old(out.lines) + AssignmentLines(e, level)
    decreases e, 0
  {
    var next := level + INDENT_STEP;
    Emit(out, level, "(AssignmentExpression");
    ghost var head := out.lines;
    PrintAssignmentOperationList(out, e.assignments, next);
    PrintConditional(out, e.rhs, next);
    Regroup(head, AssignmentOperationListLines(e.assignments, next), ConditionalLines(e.rhs, next));
    Emit(out, level, ")");
    Framed(old(out.lines), level, "(AssignmentExpression",
           AssignmentOperationListLines(e.assignments, next) + ConditionalLines(e.rhs, next));
  }

  /** One "(AssignmentOperation" section per `lhs op` pair, in order. */
  method PrintAssignmentOperationList(out: Console, operations: seq<AssignmentOperation>, level: nat)
    modifies out
    ensures out.lines == old(out.lines) + AssignmentOperationListLines(operations, level)
    decreases operations, 0
  {
    var i := 0;
    while i < |operations|
      invariant 0 <= i <= |operations|
      invariant out.lines == old(out.lines) + AssignmentOperationListLines(operations[..i], level)
    {
      var operation := operations[i];
      ghost var mark := out.lines;
      Emit(out, level, "(AssignmentOperation");
      ghost var operationHead := out.lines;
      PrintLhs(out, operation.lhs, level + INDENT_STEP);
      Emit(out, level + INDENT_STEP, "(operator " + operation.op + ")");
      ghost var operator := [Line(level + INDENT_STEP, "(operator " + operation.op + ")")];
      Regroup(operationHead, LhsLines(operation.lhs, level + INDENT_STEP), operator);
      Emit(out, level, ")");
      Framed(mark, level, "(AssignmentOperation", LhsLines(operation.lhs, level + INDENT_STEP) + operator);
      assert operations[..i + 1][..i] == operations[..i];
      Regroup(old(out.lines), AssignmentOperationListLines(operations[..i], level),
              Section(level, "(AssignmentOperation", LhsLines(operation.lhs, level + INDENT_STEP) + operator));
      i := i + 1;
    }
    assert operations[..i] == operations;
  }

  method PrintConditional(out: Console, e: ConditionalExpression, level: nat)
    modifies out
    ensures out.lines == old(out.lines) + ConditionalLines(e, level)
    decreases e, 0
  {
    var next := level + INDENT_STEP;
    Emit(out, level, "(ConditionalExpression");
    ghost var head := out.lines;
    PrintLogicalOr(out, e.lhs, next);
    PrintClauses(out, e.clauses, next);
    Regroup(head, LogicalOrLines(e.lhs, next), ClausesLines(e.clauses, next));
    Emit(out, level, ")");
    Framed(old(out.lines), level, "(ConditionalExpression", LogicalOrLines(e.lhs, next) + ClausesLines(e.clauses, next));
  }

  method PrintClauses(out: Console, clauses: Option<ConditionalClauses>, level: nat)
    modifies out
    ensures out.lines == old(out.lines) + ClausesLines(clauses, level)
    decreases clauses, 0
  {
    if clauses.Some? {
      var ternary := clauses.value;
      PrintAssignmentSection(out, "(true_clause", ternary.trueClause, level);
      PrintAssignmentSection(out, "(false_clause", ternary.falseClause, level);
      Regroup(old(out.lines), Section(level, "(true_clause", AssignmentLines(ternary.trueClause, level + INDENT_STEP)),
              Section(level, "(false_clause", AssignmentLines(ternary.falseClause, level + INDENT_STEP)));
    } else {
      assert old(out.lines) + [] == old(out.lines);
    }
  }

  /** A title line, an assignment expression one step deeper, a closing line. */
  method PrintAssignmentSection(out: Console, title: string, e: AssignmentExpression, level: nat)
    modifies out
    ensures out.lines == old(out.lines) + Section(level, title, AssignmentLines(e, level + INDENT_STEP))
    decreases e, 1
  {
    Emit(out, level, title);
    PrintAssignment(out, e, level + INDENT_STEP);
    Emit(out, level, ")");
    Framed(old(out.lines), level, title, AssignmentLines(e, level + INDENT_STEP));
  }

  method PrintLogicalOr(out: Console, e: LogicalOrExpression, level: nat)
    modifies out
    ensures out.lines == old(out.lines) + LogicalOrLines(e, level)
    decreases e, 0
  {
    var next := level + INDENT_STEP;
    Emit(out, level, "(LogicalOrExpression");
    ghost var head := out.lines;
    PrintLogicalAnd(out, e.lhs, next);
    ghost var first := LogicalAndLines(e.lhs, next);
    var i := 0;
    while i < |e.operations|
      invariant 0 <= i <= |e.operations|
      invariant out.lines == head + (first + LogicalAndListLines(e.operations[..i], next))
    {
      PrintLogicalAnd(out, e.operations[i], next);
      assert e.operations[..i + 1][..i] == e.operations[..i];
      Regroup(head, first + LogicalAndListLines(e.operations[..i], next), LogicalAndLines(e.operations[i], next));
      Regroup(first, LogicalAndListLines(e.operations[..i], next), LogicalAndLines(e.operations[i], next));
      i := i + 1;
    }
    assert e.operations[..i] == e.operations;
    Emit(out, level, ")");
    Framed(old(out.lines), level, "(LogicalOrExpression", first + LogicalAndListLines(e.operations, next));
  }

  method PrintLogicalAnd(out: Console, e: LogicalAndExpression, level: nat)
    modifies out
    ensures out.lines == old(out.lines) + LogicalAndLines(e, level)
    decreases e, 0
  {
    var next := level + INDENT_STEP;
    Emit(out, level, "(LogicalAndExpression");
    ghost var head := out.lines;
    PrintBitwiseOr(out, e.lhs, next);
    ghost var first := BitwiseOrLines(e.lhs, next);
    var i := 0;
    while i < |e.operations|
      invariant 0 <= i <= |e.operations|
      invariant out.lines == head + (first + BitwiseOrListLines(e.operations[..i], next))
    {
      PrintBitwiseOr(out, e.operations[i], next);
      assert e.operations[..i + 1][..i] == e.operations[..i];
      Regroup(head, first + BitwiseOrListLines(e.operations[..i], next), BitwiseOrLines(e.operations[i], next));
      Regroup(first, BitwiseOrListLines(e.operations[..i], next), BitwiseOrLines(e.operations[i], next));
      i := i + 1;
    }
    assert e.operations[..i] == e.operations;
    Emit(out, level, ")");
    Framed(old(out.lines), level, "(LogicalAndExpression", first + BitwiseOrListLines(e.operations, next));
  }

  method PrintBitwiseOr(out: Console, e: BitwiseOrExpression, level: nat)
    modifies out
    ensures out.lines == old(out.lines) + BitwiseOrLines(e, level)
    decreases e, 0
  {
    var next := level + INDENT_STEP;
    Emit(out, level, "(BitwiseOrExpression");
    ghost var head := out.lines;
    PrintBitwiseXor(out, e.lhs, next);
    ghost var first := BitwiseXorLines(e.lhs, next);
    var i := 0;
    while i < |e.operations|
      invariant 0 <= i <= |e.operations|
      invariant out.lines == head + (first + BitwiseXorListLines(e.operations[..i], next))
    {
      PrintBitwiseXor(out, e.operations[i], next);
      assert e.operations[..i + 1][..i] == e.operations[..i];
      Regroup(head, first + BitwiseXorListLines(e.operations[..i], next), BitwiseXorLines(e.operations[i], next));
      Regroup(first, BitwiseXorListLines(e.operations[..i], next), BitwiseXorLines(e.operations[i], next));
      i := i + 1;
    }
    assert e.operations[..i] == e.operations;
    Emit(out, level, ")");
    Framed(old(out.lines), level, "(BitwiseOrExpression", first + BitwiseXorListLines(e.operations, next));
  }

  method PrintBitwiseXor(out: Console, e: BitwiseXorExpression, level: nat)
    modifies out
    ensures out.lines == old(out.lines) + BitwiseXorLines(e, level)
    decreases e, 0
  {
    var next := level + INDENT_STEP;
    Emit(out, level, "(BitwiseXorExpression");
    ghost var head := out.lines;
    PrintBitwiseAnd(out, e.lhs, next);
    ghost var first := BitwiseAndLines(e.lhs, next);
    var i := 0;
    while i < |e.operations|
      invariant 0 <= i <= |e.operations|
      invariant out.lines == head + (first + BitwiseAndListLines(e.operations[..i], next))
    {
      PrintBitwiseAnd(out, e.operations[i], next);
      assert e.operations[..i + 1][..i] == e.operations[..i];
      Regroup(head, first + BitwiseAndListLines(e.operations[..i], next), BitwiseAndLines(e.operations[i], next));
      Regroup(first, BitwiseAndListLines(e.operations[..i], next), BitwiseAndLines(e.operations[i], next));
      i := i + 1;
    }
    assert e.operations[..i] == e.operations;
    Emit(out, level, ")");
    Framed(old(out.lines), level, "(BitwiseXorExpression", first + BitwiseAndListLines(e.operations, next));
  }

  method PrintBitwiseAnd(out: Console, e: BitwiseAndExpression, level: nat)
    modifies out
    ensures out.lines == old(out.lines) + BitwiseAndLines(e, level)
    decreases e, 0
  {
    var next := level + INDENT_STEP;
    Emit(out, level, "(BitwiseAndExpression");
    ghost var head := out.lines;
    PrintEquality(out, e.lhs, next);
    ghost var first := EqualityLines(e.lhs, next);
    var i := 0;
    while i < |e.operations|
      invariant 0 <= i <= |e.operations|
      invariant out.lines == head + (first + EqualityListLines(e.operations[..i], next))
    {
      PrintEquality(out, e.operations[i], next);
      assert e.operations[..i + 1][..i] == e.operations[..i];
      Regroup(head, first + EqualityListLines(e.operations[..i], next), EqualityLines(e.operations[i], next));
      Regroup(first, EqualityListLines(e.operations[..i], next), EqualityLines(e.operations[i], next));
      i := i + 1;
    }
    assert e.operations[..i] == e.operations;
    Emit(out, level, ")");
    Framed(old(out.lines), level, "(BitwiseAndExpression", first + EqualityListLines(e.operations, next));
  }

  /** The regrouping of one "(operator op)" line and its operand appended after a binary expression's earlier operations. */
  lemma RegroupOperation<T>(head: seq<T>, first: seq<T>, done: seq<T>, operator: seq<T>, operand: seq<T>)
    ensures head + (first + done) + operator + operand == head + (first + (done + operator + operand))
  {
    Regroup(head, first + done, operator);
    Regroup(head, first + done + operator, operand);
    Regroup(first, done, operator);
    Regroup(first, done + operator, operand);
  }

  method PrintEquality(out: Console, e: EqualityExpression, level: nat)
    modifies out
    ensures out.lines == old(out.lines) + EqualityLines(e, level)
    decreases e, 0
  {
    var next := level + INDENT_STEP;
    Emit(out, level, "(EqualityExpression");
    ghost var head := out.lines;
    PrintRelational(out, e.lhs, next);
    ghost var first := RelationalLines(e.lhs, next);
    var i := 0;
    while i < |e.operations|
      invariant 0 <= i <= |e.operations|
      invariant out.lines == head + (first + EqualityOperationListLines(e.operations[..i], next))
    {
      var operation := e.operations[i];
      Emit(out, next, "(operator " + operation.op + ")");
      PrintRelational(out, operation.rhs, next);
      assert e.operations[..i + 1][..i] == e.operations[..i];
      RegroupOperation(head, first, EqualityOperationListLines(e.operations[..i], next),
                       [Line(next, "(operator " + operation.op + ")")], RelationalLines(operation.rhs, next));
      i := i + 1;
    }
    assert e.operations[..i] == e.operations;
    Emit(out, level, ")");
    Framed(old(out.lines), level, "(EqualityExpression", first + EqualityOperationListLines(e.operations, next));
  }

  method PrintRelational(out: Console, e: RelationalExpression, level: nat)
    modifies out
    ensures out.lines == old(out.lines) + RelationalLines(e, level)
    decreases e, 0
  {
    var next := level + INDENT_STEP;
    Emit(out, level, "(RelationalExpression");
    ghost var head := out.lines;
    PrintShift(out, e.lhs, next);
    ghost var first := ShiftLines(e.lhs, next);
    var i := 0;
    while i < |e.operations|
      invariant 0 <= i <= |e.operations|
      invariant out.lines == head + (first + RelationalOperationListLines(e.operations[..i], next))
    {
      var operation := e.operations[i];
      Emit(out, next, "(operator " + operation.op + ")");
      PrintShift(out, operation.rhs, next);
      assert e.operations[..i + 1][..i] == e.operations[..i];
      RegroupOperation(head, first, RelationalOperationListLines(e.operations[..i], next),
                       [Line(next, "(operator " + operation.op + ")")], ShiftLines(operation.rhs, next));
      i := i + 1;
    }
    assert e.operations[..i] == e.operations;
    Emit(out, level, ")");
    Framed(old(out.lines), level, "(RelationalExpression", first + RelationalOperationListLines(e.operations, next));
  }

  method PrintShift(out: Console, e: ShiftExpression, level: nat)
    modifies out
    ensures out.lines == old(out.lines) + ShiftLines(e, level)
    decreases e, 0
  {
    var next := level + INDENT_STEP;
    Emit(out, level, "(ShiftExpression");
    ghost var head := out.lines;
    PrintAdditive(out, e.lhs, next);
    ghost var first := AdditiveLines(e.lhs, next);
    var i := 0;
    while i < |e.operations|
      invariant 0 <= i <= |e.operations|
      invariant out.lines == head + (first + ShiftOperationListLines(e.operations[..i], next))
    {
      var operation := e.operations[i];
      Emit(out, next, "(operator " + operation.op + ")");
      PrintAdditive(out, operation.rhs, next);
      assert e.operations[..i + 1][..i] == e.operations[..i];
      RegroupOperation(head, first, ShiftOperationListLines(e.operations[..i], next),
                       [Line(next, "(operator " + operation.op + ")")], AdditiveLines(operation.rhs, next));
      i := i + 1;
    }
    assert e.operations[..i] == e.operations;
    Emit(out, level, ")");
    Framed(old(out.lines), level, "(ShiftExpression", first + ShiftOperationListLines(e.operations, next));
  }

  method PrintAdditive(out: Console, e: AdditiveExpression, level: nat)
    modifies out
    ensures out.lines == old(out.lines) + AdditiveLines(e, level)
    decreases e, 0
  {
    var next := level + INDENT_STEP;
    Emit(out, level, "(AdditiveExpression");
    ghost var head := out.lines;
    PrintMultiplicative(out, e.lhs, next);
    ghost var first := MultiplicativeLines(e.lhs, next);
    var i := 0;
    while i < |e.operations|
      invariant 0 <= i <= |e.operations|
      invariant out.lines == head + (first + AdditiveOperationListLines(e.operations[..i], next))
    {
      var operation := e.operations[i];
      Emit(out, next, "(operator " + operation.op + ")");
      PrintMultiplicative(out, operation.rhs, next);
      assert e.operations[..i + 1][..i] == e.operations[..i];
      RegroupOperation(head, first, AdditiveOperationListLines(e.operations[..i], next),
                       [Line(next, "(operator " + operation.op + ")")], MultiplicativeLines(operation.rhs, next));
      i := i + 1;
    }
    assert e.operations[..i] == e.operations;
    Emit(out, level, ")");
    Framed(old(out.lines), level, "(AdditiveExpression", first + AdditiveOperationListLines(e.operations, next));
  }

  method PrintMultiplicative(out: Console, e: MultiplicativeExpression, level: nat)
    modifies out
    ensures out.lines == old(out.lines) + MultiplicativeLines(e, level)
    decreases e, 0
  {
    var next := level + INDENT_STEP;
    Emit(out, level, "(MultiplicativeExpression");
    ghost var head := out.lines;
    PrintUnary(out, e.lhs, next);
    ghost var first := UnaryLines(e.lhs, next);
    var i := 0;
    while i < |e.operations|
      invariant 0 <= i <= |e.operations|
      invariant out.lines == head + (first + MultiplicativeOperationListLines(e.operations[..i], next))
    {
      var operation := e.operations[i];
      Emit(out, next, "(operator " + operation.op + ")");
      PrintUnary(out, operation.rhs, next);
      assert e.operations[..i + 1][..i] == e.operations[..i];
      RegroupOperation(head, first, MultiplicativeOperationListLines(e.operations[..i], next),
                       [Line(next, "(operator " + operation.op + ")")], UnaryLines(operation.rhs, next));
      i := i + 1;
    }
    assert e.operations[..i] == e.operations;
    Emit(out, level, ")");
    Framed(old(out.lines), level, "(MultiplicativeExpression", first + MultiplicativeOperationListLines(e.operations, next));
  }

  /** The "(operator op)" lines of the prefix operators of a unary or new expression. */
  method PrintOperators(out: Console, operators: seq<string>, level: nat)
    modifies out
    ensures out.lines == old(out.lines) + OperatorLines(operators, level)
  {
    var i := 0;
    while i < |operators|
      invariant 0 <= i <= |operators|
      invariant out.lines == old(out.lines) + OperatorLines(operators[..i], level)
    {
      Emit(out, level, "(operator " + operators[i] + ")");
      assert operators[..i + 1][..i] == operators[..i];
      Regroup(old(out.lines), OperatorLines(operators[..i], level), [Line(level, "(operator " + operators[i] + ")")]);
      i := i + 1;
    }
    assert operators[..i] == operators;
  }

  method PrintUnary(out: Console, e: UnaryExpression, level: nat)
    modifies out
    ensures out.lines == old(out.lines) + UnaryLines(e, level)
    decreases e, 0
  {
    var next := level + INDENT_STEP;
    Emit(out, level, "(UnaryExpression");
    ghost var head := out.lines;
    PrintOperators(out, e.operators, next);
    PrintPostfix(out, e.rhs, next);
    Regroup(head, OperatorLines(e.operators, next), PostfixLines(e.rhs, next));
    Emit(out, level, ")");
    Framed(old(out.lines), level, "(UnaryExpression", OperatorLines(e.operators, next) + PostfixLines(e.rhs, next));
  }

  method PrintPostfix(out: Console, e: PostfixExpression, level: nat)
    modifies out
    ensures out.lines == old(out.lines) + PostfixLines(e, level)
    decreases e, 0
  {
    var next := level + INDENT_STEP;
    Emit(out, level, "(PostfixExpression");
    ghost var head := out.lines;
    PrintLhs(out, e.lhs, next);
    PrintPostfixOperator(out, e.op, next);
    Regroup(head, LhsLines(e.lhs, next), PostfixOperatorLines(e.op, next));
    Emit(out, level, ")");
    Framed(old(out.lines), level, "(PostfixExpression", LhsLines(e.lhs, next) + PostfixOperatorLines(e.op, next));
  }

  method PrintPostfixOperator(out: Console, op: Option<string>, level: nat)
    modifies out
    ensures out.lines == old(out.lines) + PostfixOperatorLines(op, level)
  {
    if op.Some? {
      Emit(out, level, "(operator " + op.value + ")");
    }
  }

  method PrintLhs(out: Console, e: LhsExpression, level: nat)
    modifies out
    ensures out.lines == old(out.lines) + LhsLines(e, level)
    decreases e, 1
  {
    Emit(out, level, "(LhsExpression");
    PrintLhsBody(out, e, level + INDENT_STEP);
    Emit(out, level, ")");
    Framed(old(out.lines), level, "(LhsExpression", LhsBodyLines(e, level + INDENT_STEP));
  }

  method PrintLhsBody(out: Console, e: LhsExpression, level: nat)
    modifies out
    ensures out.lines == old(out.lines) + LhsBodyLines(e, level)
    decreases e, 0
  {
    match e
    case Call(_) => Emit(out, level, "(CallExpression)");
    case New(n) => PrintNew(out, n, level);
  }

  method PrintNew(out: Console, e: NewExpression, level: nat)
    modifies out
    ensures out.lines == old(out.lines) + NewLines(e, level)
    decreases e, 0
  {
    var next := level + INDENT_STEP;
    Emit(out, level, "(NewExpression");
    ghost var head := out.lines;
    PrintOperators(out, e.operators, next);
    PrintMember(out, e.member, next);
    Regroup(head, OperatorLines(e.operators, next), MemberLines(e.member, next));
    Emit(out, level, ")");
    Framed(old(out.lines), level, "(NewExpression", OperatorLines(e.operators, next) + MemberLines(e.member, next));
  }

  method PrintMember(out: Console, e: MemberExpression, level: nat)
    modifies out
    ensures out.lines == old(out.lines) + MemberLines(e, level)
    decreases e, 2
  {
    Emit(out, level, "(MemberExpression");
    PrintMemberBody(out, e, level + INDENT_STEP);
    Emit(out, level, ")");
    Framed(old(out.lines), level, "(MemberExpression", MemberBodyLines(e, level + INDENT_STEP));
  }

  method PrintMemberBody(out: Console, e: MemberExpression, level: nat)
    modifies out
    ensures out.lines == old(out.lines) + MemberBodyLines(e, level)
    decreases e, 1
  {
    match e
    case MemberAccess(_, _) => PrintMemberAccess(out, e, level);
    case Instantiation(_, _) => PrintInstantiation(out, e, level);
  }

  method PrintMemberAccess(out: Console, e: MemberExpression, level: nat)
    requires e.MemberAccess?
    modifies out
    ensures out.lines == old(out.lines) + MemberAccessLines(e, level)
    decreases e, 0
  {
    var next := level + INDENT_STEP;
    Emit(out, level, "(MemberAccess");
    ghost var head := out.lines;
    Emit(out, next, "(member ");
    PrintMemberOptions(out, e.member, next + INDENT_STEP);
    Emit(out, next, ")");
    Framed(head, next, "(member ", MemberOptionsLines(e.member, next + INDENT_STEP));
    ghost var member := Section(next, "(member ", MemberOptionsLines(e.member, next + INDENT_STEP));
    PrintModifiers(out, e.modifiers, next);
    Regroup(head, member, ModifiersLines(e.modifiers, next));
    Emit(out, level, ")");
    Framed(old(out.lines), level, "(MemberAccess", member + ModifiersLines(e.modifiers, next));
  }

  method PrintModifiers(out: Console, modifiers: seq<MemberModifier>, level: nat)
    modifies out
    ensures out.lines == old(out.lines) + ModifiersLines(modifiers, level)
  {
    if modifiers != [] {
      Emit(out, level, "(modifiers ");
      ghost var head := out.lines;
      var i := 0;
      while i < |modifiers|
        invariant 0 <= i <= |modifiers|
        invariant out.lines == head + ModifierListLines(modifiers[..i], level + INDENT_STEP)
      {
        Emit(out, level + INDENT_STEP, "(MemberModifier)");
        assert modifiers[..i + 1][..i] == modifiers[..i];
        Regroup(head, ModifierListLines(modifiers[..i], level + INDENT_STEP),
                [Line(level + INDENT_STEP, "(MemberModifier)")]);
        i := i + 1;
      }
      assert modifiers[..i] == modifiers;
      Emit(out, level, ")");
      Framed(old(out.lines), level, "(modifiers ", ModifierListLines(modifiers, level + INDENT_STEP));
    }
  }

  method PrintInstantiation(out: Console, e: MemberExpression, level: nat)
    requires e.Instantiation?
    modifies out
    ensures out.lines == old(out.lines) + InstantiationLines(e, level)
    decreases e, 0
  {
    var next := level + INDENT_STEP;
    Emit(out, level, "(Instantiation");
    ghost var head := out.lines;
    PrintMember(out, e.target, next);
    PrintArguments(out, e.arguments, next);
    Regroup(head, MemberLines(e.target, next), ArgumentsLines(e.arguments, next));
    Emit(out, level, ")");
    Framed(old(out.lines), level, "(Instantiation", MemberLines(e.target, next) + ArgumentsLines(e.arguments, next));
  }

  /** The arguments go through the statement printer's expression handler: an "(Expression " list. */
  method PrintArguments(out: Console, arguments: seq<AssignmentExpression>, level: nat)
    modifies out
    ensures out.lines == old(out.lines) + ArgumentsLines(arguments, level)
    decreases arguments, 1
  {
    var inner := level + INDENT_STEP;
    Emit(out, level, "(arguments ");
    ghost var head := out.lines;
    Emit(out, inner, "(Expression ");
    PrintAssignmentList(out, arguments, inner + INDENT_STEP);
    Emit(out, inner, ")");
    Framed(head, inner, "(Expression ", AssignmentListLines(arguments, inner + INDENT_STEP));
    Emit(out, level, ")");
    Framed(old(out.lines), level, "(arguments ",
           Section(inner, "(Expression ", AssignmentListLines(arguments, inner + INDENT_STEP)));
  }

  method PrintAssignmentList(out: Console, items: seq<AssignmentExpression>, level: nat)
    modifies out
    ensures out.lines == old(out.lines) + AssignmentListLines(items, level)
    decreases items, 0
  {
    var i := 0;
    while i < |items|
      invariant 0 <= i <= |items|
      invariant out.lines == old(out.lines) + AssignmentListLines(items[..i], level)
    {
      PrintAssignment(out, items[i], level);
      assert items[..i + 1][..i] == items[..i];
      Regroup(old(out.lines), AssignmentListLines(items[..i], level), AssignmentLines(items[i], level));
      i := i + 1;
    }
    assert items[..i] == items;
  }

  method PrintMemberOptions(out: Console, e: MemberOptions, level: nat)
    modifies out
    ensures out.lines == old(out.lines) + MemberOptionsLines(e, level)
    decreases e, 1
  {
    Emit(out, level, "(MemberOptions");
    PrintMemberOptionsBody(out, e, level + INDENT_STEP);
    Emit(out, level, ")");
    Framed(old(out.lines), level, "(MemberOptions", MemberOptionsBodyLines(e, level + INDENT_STEP));
  }

  method PrintMemberOptionsBody(out: Console, e: MemberOptions, level: nat)
    modifies out
    ensures out.lines == old(out.lines) + MemberOptionsBodyLines(e, level)
    decreases e, 0
  {
    match e
    case PrimaryMember(p) => PrintPrimary(out, p, level);
    case FunctionMember(_) => Emit(out, level, "(FunctionExpression)");
  }

  method PrintPrimary(out: Console, p: PrimaryExpression, level: nat)
    modifies out
    ensures out.lines == old(out.lines) + PrimaryLines(p, level)
    decreases p, 1
  {
    Emit(out, level, "(PrimaryExpression");
    PrintPrimaryBody(out, p, level + INDENT_STEP);
    Emit(out, level, ")");
    Framed(old(out.lines), level, "(PrimaryExpression", PrimaryBodyLines(p, level + INDENT_STEP));
  }

  // ---------------------------------------------------------------- PrimaryExpressionPrinter

  method PrintPrimaryBody(out: Console, p: PrimaryExpression, level: nat)
    modifies out
    ensures out.lines == old(out.lines) + PrimaryBodyLines(p, level)
    decreases p, 0
  {
    match p
    case This => Emit(out, level, "(This)");
    case Identifier(name) => Emit(out, level, "(identifier " + name + ")");
    case LiteralValue(l) => Emit(out, level, "(literal " + LiteralText(l) + ")");
    case Grouped(e) => PrintExpression(out, e, level);
  }
}
