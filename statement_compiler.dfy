/**
 * The statement compiler of kunjs (src/kunjs/compiler/statement_compiler.cc).
 * Only expression statements produce a computed value; a var statement
 * yields the value of its last declaration, which is a placeholder; a
 * nested statement list goes to a fresh program compiler; every other
 * statement kind yields the i8* null pointer without compiling its parts.
 */
module StatementCompiler {
  import opened Wrappers
  import opened Ast
  import opened IR
  import opened ExpressionCompiler
  import PC = ProgramCompiler

  /** `operator()(Expression)`: compile every item in order and keep the last value. */
  method CompileExpression(e: Expression) returns (result: Value)
    ensures result == LowerAssignment(e.Items()[|e.Items()| - 1])
    ensures result == LowerItems(e)
  {
    // The list always holds an item, so the first iteration is taken out of the loop.
    var items := e.Items();
    result := LowerAssignment(items[0]);
    var i := 1;
    while i < |items|
      invariant 1 <= i <= |items|
      invariant result == LowerAssignment(items[i - 1])
    {
      result := LowerAssignment(items[i]);
      i := i + 1;
    }
    if e.tail != [] {
      assert items[|items| - 1] == e.tail[|e.tail| - 1];
    }
  }

  /** `operator()(VarDeclaration)`: the initializer is not compiled. */
  function LowerVarDeclaration(declaration: VarDeclaration): (r: Value)
    ensures r == LowerLiteral(NullLiteral) && EvalInt(r).None?
  {
    NullI8Ptr
  }

  /** `operator()(Var)`: compile every declaration in order and keep the last value. */
  method CompileVar(v: Var) returns (result: Value)
    ensures result == LowerVarDeclaration(v.Declarations()[|v.Declarations()| - 1])
    ensures result == NullI8Ptr
  {
    var declarations := v.Declarations();
    result := LowerVarDeclaration(declarations[0]);
    var i := 1;
    while i < |declarations|
      invariant 1 <= i <= |declarations|
      invariant result == LowerVarDeclaration(declarations[i - 1])
    {
      result := LowerVarDeclaration(declarations[i]);
      i := i + 1;
    }
  }

  /** `operator()(Case)`: neither the match clause nor the statements are compiled. */
  function LowerCase(clause: Case): (r: Value)
    ensures r == LowerLiteral(NullLiteral) && EvalInt(r).None?
  {
    NullI8Ptr
  }

  /**
   * The value the visitor gives a statement; None is the never-assigned
   * result of a program compiler that walked an empty block.
   */
  function LowerStatement(statement: Statement): (r: Option<Value>)
    ensures r.None? <==> statement == Block([])
    ensures statement.ExpressionStatement? ==> r == Some(LowerItems(statement.expression))
    ensures statement.VarStatement? ==> r == Some(NullI8Ptr)
    ensures statement.Block? && statement.statements != [] ==> r == Some(NullI64Ptr)
    ensures !statement.ExpressionStatement? && !statement.Block? ==> r == Some(NullI8Ptr)
  {
    match statement
    case ExpressionStatement(e) => Some(LowerItems(e))
    case VarStatement(v) => Some(LowerVarDeclaration(v.head))
    case Block(list) => if list == [] then None else Some(NullI64Ptr)
    case _ => Some(NullI8Ptr)
  }

  /** The visitor applied to one statement. */
  method CompileStatement(statement: Statement) returns (v: Option<Value>)
    ensures v == LowerStatement(statement)
    ensures statement.ExpressionStatement? ==> v == Some(LowerItems(statement.expression))
    ensures !statement.ExpressionStatement? && !statement.Block? ==> v == Some(NullI8Ptr)
    ensures statement.Block? ==> v == (if statement.statements == [] then None else Some(NullI64Ptr))
  {
    match statement
    case ExpressionStatement(e) =>
      var value := CompileExpression(e);
      v := Some(value);
    case VarStatement(declarations) =>
      var value := CompileVar(declarations);
      v := Some(value);
    case Block(list) =>
      var compiler := new PC.ProgramCompiler();
      v := compiler.CompileStatements(list);
    case _ =>
      v := Some(NullI8Ptr);
  }

  /**
   * Statements other than expression statements and blocks produce the
   * i8* placeholder, the same value as the `null` literal, and a
   * non-empty block produces the program compiler's i64* placeholder,
   * which is a different value.
   */
  lemma StatementPlaceholders(statement: Statement)
    ensures !statement.ExpressionStatement? && !statement.Block? ==>
              LowerStatement(statement) == Some(LowerLiteral(NullLiteral))
              && TypeOf(LowerStatement(statement).value) == Pointer(I8)
    ensures statement.Block? && statement.statements != [] ==>
              LowerStatement(statement) != Some(LowerLiteral(NullLiteral))
              && TypeOf(LowerStatement(statement).value) == Pointer(I64)
  {
  }
}
