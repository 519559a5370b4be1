/**
 * The program compiler of kunjs (src/kunjs/compiler/program_compiler.cc).
 * It is a visitor object whose `result` member every element handler
 * overwrites.  A program or statement list is compiled by `std::for_each`,
 * which walks the list with a COPY of the visitor and hands that copy
 * back; the value returned is the copy's `result`, so the compiler the
 * call was made on is left as it was.
 *
 * The call into the statement compiler is commented out in the source, so
 * every statement, like every function declaration, compiles to the i64*
 * null pointer.
 */
module ProgramCompiler {
  import opened Wrappers
  import opened Ast
  import opened IR

  /**
   * What `std::for_each(list.begin(), list.end(), *this).result` yields
   * for a list of `count` elements on a compiler whose result is `initial`:
   * the last element's value, or the copied `initial` when there is none.
   */
  function ForEachResult(initial: Option<Value>, count: nat): (r: Option<Value>)
    ensures count == 0 ==> r == initial
    ensures count > 0 ==> r == Some(NullI64Ptr)
  {
    if count == 0 then initial else Some(NullI64Ptr)
  }

  class ProgramCompiler {
    /** The most recent element's value; None is a pointer never assigned. */
    var result: Option<Value>

    /** A new compiler: `result` is not initialised by the constructor. */
    constructor ()
      ensures result == None
    {
      result := None;
    }

    /** The copy `std::for_each` takes of the visitor. */
    constructor Copy(other: ProgramCompiler)
      ensures result == other.result
    {
      result := other.result;
    }

    /** `operator()(FunctionDeclaration)`: the body is not compiled. */
    method CompileFunctionDeclaration(function_: FunctionDeclaration) returns (v: Value)
      modifies this
      ensures v == NullI64Ptr && result == Some(v)
    {
      result := Some(NullI64Ptr);
      v := NullI64Ptr;
    }

    /** `operator()(Statement)`: the statement compiler is not called. */
    method CompileStatement(statement: Statement) returns (v: Value)
      modifies this
      ensures v == NullI64Ptr && result == Some(v)
    {
      result := Some(NullI64Ptr);
      v := NullI64Ptr;
    }

    /** `operator()(SourceElement)`: visit the element and keep its value in `result`. */
    method CompileSourceElement(element: SourceElement) returns (v: Value)
      modifies this
      ensures v == NullI64Ptr && result == Some(v)
    {
      match element
      case FunctionElement(declaration) =>
        v := CompileFunctionDeclaration(declaration);
      case StatementElement(statement) =>
        v := CompileStatement(statement);
    }

    /**
     * `operator()(Program)`: the value of the last source element, or the
     * compiler's own (possibly never assigned) result for an empty program.
     * The compiler itself is not changed.
     */
    method CompileProgram(program: Program) returns (v: Option<Value>)
      ensures program != [] ==> v == Some(NullI64Ptr)
      ensures program == [] ==> v == result
    {
      var visitor := new ProgramCompiler.Copy(this);
      var i := 0;
      while i < |program|
        invariant 0 <= i <= |program|
        invariant visitor.result == ForEachResult(result, i)
      {
        var _ := visitor.CompileSourceElement(program[i]);
        i := i + 1;
      }
      v := visitor.result;
    }

    /** `operator()(std::vector<Statement>)`: the same walk over a statement list. */
    method CompileStatements(list: seq<Statement>) returns (v: Option<Value>)
      ensures list != [] ==> v == Some(NullI64Ptr)
      ensures list == [] ==> v == result
    {
      var visitor := new ProgramCompiler.Copy(this);
      var i := 0;
      while i < |list|
        invariant 0 <= i <= |list|
        invariant visitor.result == ForEachResult(result, i)
      {
        var _ := visitor.CompileStatement(list[i]);
        i := i + 1;
      }
      v := visitor.result;
    }
  }
}
