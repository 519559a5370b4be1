/**
 * The recursive-descent grammar of kunjs (src/kunjs/grammar.cc:61-229), one
 * function per Spirit rule, each from an input to a Parsed result.
 *
 * Spirit's operators become:
 *  - `a | b`   ordered choice: b is tried only when a fails softly (NoMatch);
 *  - `a >> b`  sequence: when b fails softly the whole sequence fails softly;
 *  - `a > b`   expectation: when b fails after a matched, the parse aborts
 *              (Spirit throws expectation_failure, which the on_error<fail>
 *              handler of `program` turns into a failed parse);
 *  - `*p`      greedy repetition that stops at p's first soft failure;
 *  - `-p`      optional; `a % b` one or more a's separated by b's.
 *
 * Termination: every call is either on a strictly shorter input or on the
 * same input but to a rule of lower rank (the second `decreases` component),
 * which is what makes the grammar free of left recursion.
 */
module Grammar {
  import opened Wrappers
  import opened Ast
  import opened Lexical

  /** Match: the rule matched, with its attribute and the unconsumed input.
      NoMatch: soft failure.  Abort: an expectation failed. */
  datatype Parsed<T> = Match(value: T, rest: string) | NoMatch | Abort

  /** A rule that matches consumes input, and a rule never matches blank input. */
  predicate Progress<T>(s: string, r: Parsed<T>) {
    (r.Match? ==> |r.rest| < |s|) && (Blank(s) ==> r.NoMatch?)
  }

  /** A repetition never fails softly, never grows the input, and matches nothing on blank input. */
  predicate ListProgress<T>(s: string, r: Parsed<seq<T>>) {
    !r.NoMatch? && (r.Match? ==> |r.rest| <= |s|) && (Blank(s) ==> r == Match([], s))
  }

  // ================================================================ top level

  /** program = *source_element (also function_body = *source_element) */
  function ParseSourceElements(s: string): (r: Parsed<seq<SourceElement>>)
    ensures ListProgress(s, r)
    ensures ParseSourceElement(s).NoMatch? ==> r == Match([], s)
    ensures r.Match? && r.value != [] ==> ParseSourceElement(s).Match? && r.value[0] == ParseSourceElement(s).value
    ensures r.Match? ==> ParseSourceElement(r.rest).NoMatch?
    ensures r.Match? && r.value != [] ==>
              ParseSourceElement(s).Match? && ParseSourceElements(ParseSourceElement(s).rest).Match?
              && r.value[1..] == ParseSourceElements(ParseSourceElement(s).rest).value && r.rest == ParseSourceElements(ParseSourceElement(s).rest).rest
    decreases |s|, 99
  {
    match ParseSourceElement(s)
    case NoMatch => Match([], s)
    case Abort => Abort
    case Match(e, r1) =>
      match ParseSourceElements(r1)
      case Match(more, r2) => Match([e] + more, r2)
      case _ => Abort
  }

  /** source_element = function_declaration | statement */
  function ParseSourceElement(s: string): (r: Parsed<SourceElement>)
    ensures Progress(s, r)
    ensures r.NoMatch? <==> ParseFunctionDeclaration(s).NoMatch? && ParseStatement(s).NoMatch?
    ensures r.Match? && r.value.FunctionElement? ==>
              ParseFunctionDeclaration(s).Match? && r.value.declaration == ParseFunctionDeclaration(s).value
    ensures r.Match? && r.value.StatementElement? ==>
              ParseFunctionDeclaration(s).NoMatch? && ParseStatement(s).Match? && r.value.statement == ParseStatement(s).value
    decreases |s|, 98
  {
    match ParseFunctionDeclaration(s)
    case Match(f, r1) => Match(FunctionElement(f), r1)
    case Abort => Abort
    case NoMatch =>
      match ParseStatement(s)
      case Match(st, r1) => Match(StatementElement(st), r1)
      case Abort => Abort
      case NoMatch => NoMatch
  }

  /** function_declaration = "function" > identifier > function tail */
  function ParseFunctionDeclaration(s: string): (r: Parsed<FunctionDeclaration>)
    ensures Progress(s, r)
    ensures r.NoMatch? <==> Lit(s, "function").None?
    ensures Lit(s, "function").Some? && IdentifierToken(Lit(s, "function").value).None? ==> r.Abort?
    ensures r.Match? ==>
              IdentifierToken(Lit(s, "function").value).Some?
              && r.value.name == IdentifierToken(Lit(s, "function").value).value.0
    ensures r.Match? ==> forall p <- r.value.parameters :: IsIdentifierName(p)
    ensures r.Match? ==>
              Lit(s, "function").Some? && IdentifierToken(Lit(s, "function").value).Some?
              && ParseFunctionTail(IdentifierToken(Lit(s, "function").value).value.1).Match?
              && ParseFunctionTail(IdentifierToken(Lit(s, "function").value).value.1).value == (r.value.parameters, r.value.body)
    decreases |s|, 97
  {
    match Lit(s, "function")
    case None => NoMatch
    case Some(r1) =>
      match IdentifierToken(r1)
      case None => Abort
      case Some((name, r2)) =>
        match ParseFunctionTail(r2)
        case Match((parameters, body), r3) => Match(FunctionDeclaration(name, parameters, body), r3)
        case _ => Abort
  }

  /** `'(' > -formal_parameter_list > ')' > '{' > function_body > '}'`, which
      follows an expectation in both function rules: any failure aborts. */
  function ParseFunctionTail(s: string): (r: Parsed<(seq<string>, seq<SourceElement>)>)
    ensures !r.NoMatch? && (r.Match? ==> |r.rest| < |s|)
    ensures Lit(s, "(").None? ==> r.Abort?
    ensures r.Match? ==> forall p <- r.value.0 :: IsIdentifierName(p)
    ensures r.Match? ==>
              Lit(s, "(").Some?
              && (var (names, afterNames) := ParameterList(Lit(s, "(").value);
                  r.value.0 == names && Lit(afterNames, ")").Some? && Lit(Lit(afterNames, ")").value, "{").Some?
                  && ParseSourceElements(Lit(Lit(afterNames, ")").value, "{").value).Match?
                  && r.value.1 == ParseSourceElements(Lit(Lit(afterNames, ")").value, "{").value).value)
    decreases |s|, 97
  {
    match Lit(s, "(")
    case None => Abort
    case Some(r1) =>
      var (parameters, r2) := ParameterList(r1);
      match Lit(r2, ")")
      case None => Abort
      case Some(r3) =>
        match Lit(r3, "{")
        case None => Abort
        case Some(r4) =>
          match ParseSourceElements(r4)
          case Match(body, r5) =>
            (match Lit(r5, "}")
             case Some(r6) => Match((parameters, body), r6)
             case None => Abort)
          case _ => Abort
  }

  /** `-(identifier % ",")`: the parameter names, possibly none. */
  function ParameterList(s: string): (r: (seq<string>, string))
    ensures |r.1| <= |s|
    ensures IdentifierToken(s).None? ==> r == ([], s)
    ensures forall p <- r.0 :: IsIdentifierName(p)
    ensures r.0 != [] ==>
              IdentifierToken(s).Some? && r.0[0] == IdentifierToken(s).value.0
              && r.0[1..] == ParameterTail(IdentifierToken(s).value.1).0 && r.1 == ParameterTail(IdentifierToken(s).value.1).1
  {
    match IdentifierToken(s)
    case None => ([], s)
    case Some((name, r1)) =>
      var (more, r2) := ParameterTail(r1);
      ([name] + more, r2)
  }

  /** `*("," >> identifier)` */
  function ParameterTail(s: string): (r: (seq<string>, string))
    ensures |r.1| <= |s|
    ensures Lit(s, ",").None? ==> r == ([], s)
    ensures forall p <- r.0 :: IsIdentifierName(p)
    ensures r.0 != [] ==>
              Lit(s, ",").Some? && IdentifierToken(Lit(s, ",").value).Some?
              && r.0[0] == IdentifierToken(Lit(s, ",").value).value.0
              && r.0[1..] == ParameterTail(IdentifierToken(Lit(s, ",").value).value.1).0
              && r.1 == ParameterTail(IdentifierToken(Lit(s, ",").value).value.1).1
    decreases |s|
  {
    match Lit(s, ",")
    case None => ([], s)
    case Some(r1) =>
      match IdentifierToken(r1)
      case None => ([], s)
      case Some((name, r2)) =>
        var (more, r3) := ParameterTail(r2);
        ([name] + more, r3)
  }

  // ================================================================ statements

  /** `*statement` */
  function ParseStatements(s: string): (r: Parsed<seq<Statement>>)
    ensures ListProgress(s, r)
    ensures ParseStatement(s).NoMatch? ==> r == Match([], s)
    ensures r.Match? && r.value != [] ==> ParseStatement(s).Match? && r.value[0] == ParseStatement(s).value
    ensures r.Match? ==> ParseStatement(r.rest).NoMatch?
    ensures r.Match? && r.value != [] ==>
              ParseStatement(s).Match? && ParseStatements(ParseStatement(s).rest).Match?
              && r.value[1..] == ParseStatements(ParseStatement(s).rest).value && r.rest == ParseStatements(ParseStatement(s).rest).rest
    decreases |s|, 98
  {
    match ParseStatement(s)
    case NoMatch => Match([], s)
    case Abort => Abort
    case Match(st, r1) =>
      match ParseStatements(r1)
      case Match(more, r2) => Match([st] + more, r2)
      case _ => Abort
  }

  /** statement: the twenty alternatives in the order grammar.cc lists them. */
  function ParseStatement(s: string): (r: Parsed<Statement>)
    ensures Progress(s, r)
    ensures !ParseSimpleStatement(s).NoMatch? ==> r == ParseSimpleStatement(s)
    ensures r.Match? && (r.value.IfStatement? || r.value.DoWhileStatement? || r.value.WhileStatement?
                         || r.value.ForStatement? || r.value.ForWithVarStatement?
                         || r.value.ForeachStatement? || r.value.ForeachWithVarStatement?) ==>
              r == ParseIfOrLoopStatement(s)
    ensures r.Match? && (r.value.Continue? || r.value.Break? || r.value.Return? || r.value.WithStatement?
                         || r.value.Labelled? || r.value.SwitchStatement? || r.value.Throw?
                         || r.value.TryStatement? || r.value.Debugger? || r.value.Block?) ==>
              r == ParseLaterStatement(s)
    decreases |s|, 97
  {
    var r1 := ParseSimpleStatement(s);
    if !r1.NoMatch? then r1 else
    var r2 := ParseIfOrLoopStatement(s);
    if !r2.NoMatch? then r2 else
    ParseLaterStatement(s)
  }

  /** Alternatives one to three of statement: an expression, var or empty statement. */
  function ParseSimpleStatement(s: string): (r: Parsed<Statement>)
    ensures Progress(s, r)
    ensures !ParseExpressionStatement(s).NoMatch? ==> r == ParseExpressionStatement(s)
    ensures r.Match? && r.value.VarStatement? ==> r == ParseVariableStatement(s)
    ensures r.Match? && r.value.Noop? ==> r == ParseEmptyStatement(s)
    ensures r.Match? ==> r.value.ExpressionStatement? || r.value.VarStatement? || r.value.Noop?
    decreases |s|, 96
  {
    var r1 := ParseExpressionStatement(s);
    if !r1.NoMatch? then r1 else
    var r2 := ParseVariableStatement(s);
    if !r2.NoMatch? then r2 else
    ParseEmptyStatement(s)
  }

  /** Alternatives four to ten of statement: the if statement and the loops. */
  function ParseIfOrLoopStatement(s: string): (r: Parsed<Statement>)
    ensures Progress(s, r)
    ensures r.Match? && r.value.IfStatement? ==> r == ParseIfStatement(s)
    ensures r.Match? && r.value.DoWhileStatement? ==> r == ParseDoWhileStatement(s)
    ensures r.Match? && r.value.WhileStatement? ==> r == ParseWhileStatement(s)
    ensures r.Match? && r.value.ForStatement? ==> r == ParseForStatement(s)
    ensures r.Match? && r.value.ForWithVarStatement? ==> r == ParseForWithVarStatement(s)
    ensures r.Match? && r.value.ForeachStatement? ==> r == ParseForeachStatement(s)
    ensures r.Match? && r.value.ForeachWithVarStatement? ==> r == ParseForeachWithVarStatement(s)
    ensures r.Match? ==> r.value.IfStatement? || r.value.DoWhileStatement? || r.value.WhileStatement? || r.value.ForStatement? || r.value.ForWithVarStatement? || r.value.ForeachStatement? || r.value.ForeachWithVarStatement?
    decreases |s|, 96
  {
    var r4 := ParseIfStatement(s);
    if !r4.NoMatch? then r4 else
    var r5 := ParseDoWhileStatement(s);
    if !r5.NoMatch? then r5 else
    var r6 := ParseWhileStatement(s);
    if !r6.NoMatch? then r6 else
    var r7 := ParseForStatement(s);
    if !r7.NoMatch? then r7 else
    var r8 := ParseForWithVarStatement(s);
    if !r8.NoMatch? then r8 else
    var r9 := ParseForeachStatement(s);
    if !r9.NoMatch? then r9 else
    ParseForeachWithVarStatement(s)
  }

  /** Alternatives eleven to twenty of statement. */
  function ParseLaterStatement(s: string): (r: Parsed<Statement>)
    ensures Progress(s, r)
    ensures r.Match? && r.value.Continue? ==> r == ParseContinueStatement(s)
    ensures r.Match? && r.value.Break? ==> r == ParseBreakStatement(s)
    ensures r.Match? && r.value.Return? ==> r == ParseReturnStatement(s)
    ensures r.Match? && r.value.WithStatement? ==> r == ParseWithStatement(s)
    ensures r.Match? && r.value.Labelled? ==> r == ParseLabelledStatement(s)
    ensures r.Match? && r.value.SwitchStatement? ==> r == ParseSwitchStatement(s)
    ensures r.Match? && r.value.Throw? ==> r == ParseThrowStatement(s)
    ensures r.Match? && r.value.TryStatement? ==> r == ParseTryStatement(s)
    ensures r.Match? && r.value.Debugger? ==> r == ParseDebuggerStatement(s)
    ensures r.Match? && r.value.Block? ==> r == ParseBlock(s)
    ensures r.Match? ==> r.value.Continue? || r.value.Break? || r.value.Return? || r.value.WithStatement? || r.value.Labelled? || r.value.SwitchStatement? || r.value.Throw? || r.value.TryStatement? || r.value.Debugger? || r.value.Block?
    decreases |s|, 96
  {
    var r11 := ParseContinueStatement(s);
    if !r11.NoMatch? then r11 else
    var r12 := ParseBreakStatement(s);
    if !r12.NoMatch? then r12 else
    var r13 := ParseReturnStatement(s);
    if !r13.NoMatch? then r13 else
    var r14 := ParseWithStatement(s);
    if !r14.NoMatch? then r14 else
    var r15 := ParseLabelledStatement(s);
    if !r15.NoMatch? then r15 else
    var r16 := ParseSwitchStatement(s);
    if !r16.NoMatch? then r16 else
    var r17 := ParseThrowStatement(s);
    if !r17.NoMatch? then r17 else
    var r18 := ParseTryStatement(s);
    if !r18.NoMatch? then r18 else
    var r19 := ParseDebuggerStatement(s);
    if !r19.NoMatch? then r19 else
    ParseBlock(s)
  }

  /** `!lit("function") >> expression >> ";"` */
  function ParseExpressionStatement(s: string): (r: Parsed<Statement>)
    ensures r.Match? ==> r.value.ExpressionStatement? && Lit(s, "function").None?
    ensures Progress(s, r)
    ensures ParseExpression(s).NoMatch? ==> r.NoMatch?
    ensures r.Match? ==>
              ParseExpression(s).Match? && r.value.expression == ParseExpression(s).value
              && Lit(ParseExpression(s).rest, ";") == Some(r.rest)
    decreases |s|, 95
  {
    if Lit(s, "function").Some? then NoMatch
    else
      match ParseExpression(s)
      case NoMatch => NoMatch
      case Abort => Abort
      case Match(e, r1) =>
        match Lit(r1, ";")
        case None => NoMatch
        case Some(r2) => Match(ExpressionStatement(e), r2)
  }

  /** variable_statement = "var" >> (variable_declaration % ",") >> ";" */
  function ParseVariableStatement(s: string): (r: Parsed<Statement>)
    ensures Progress(s, r)
    ensures Lit(s, "var").None? ==> r.NoMatch?
    ensures r.Match? ==>
              r.value.VarStatement? && Lit(s, "var").Some? && ParseVarDeclarations(Lit(s, "var").value).Match?
              && r.value.declarations == ParseVarDeclarations(Lit(s, "var").value).value
    decreases |s|, 95
  {
    match Lit(s, "var")
    case None => NoMatch
    case Some(r1) =>
      match ParseVarDeclarations(r1)
      case NoMatch => NoMatch
      case Abort => Abort
      case Match(v, r2) =>
        match Lit(r2, ";")
        case None => NoMatch
        case Some(r3) => Match(VarStatement(v), r3)
  }

  /** `variable_declaration % ","` */
  function ParseVarDeclarations(s: string): (r: Parsed<Var>)
    ensures Progress(s, r)
    ensures r.NoMatch? <==> ParseVariableDeclaration(s).NoMatch?
    ensures r.Match? ==> ParseVariableDeclaration(s).Match? && r.value.head == ParseVariableDeclaration(s).value
    ensures r.Match? ==>
              ParseVariableDeclaration(s).Match? && ParseVarDeclarationTail(ParseVariableDeclaration(s).rest).Match?
              && r.value.tail == ParseVarDeclarationTail(ParseVariableDeclaration(s).rest).value
    decreases |s|, 94
  {
    match ParseVariableDeclaration(s)
    case NoMatch => NoMatch
    case Abort => Abort
    case Match(d, r1) =>
      match ParseVarDeclarationTail(r1)
      case Match(more, r2) => Match(Var(d, more), r2)
      case _ => Abort
  }

  /** `*("," >> variable_declaration)` */
  function ParseVarDeclarationTail(s: string): (r: Parsed<seq<VarDeclaration>>)
    ensures ListProgress(s, r)
    ensures Lit(s, ",").None? ==> r == Match([], s)
    ensures r.Match? && r.value != [] ==>
              Lit(s, ",").Some? && ParseVariableDeclaration(Lit(s, ",").value).Match?
              && r.value[0] == ParseVariableDeclaration(Lit(s, ",").value).value
    ensures r.Match? && r.value != [] ==>
              Lit(s, ",").Some? && ParseVariableDeclaration(Lit(s, ",").value).Match? && ParseVarDeclarationTail(ParseVariableDeclaration(Lit(s, ",").value).rest).Match?
              && r.value[1..] == ParseVarDeclarationTail(ParseVariableDeclaration(Lit(s, ",").value).rest).value && r.rest == ParseVarDeclarationTail(ParseVariableDeclaration(Lit(s, ",").value).rest).rest
    decreases |s|, 94
  {
    match Lit(s, ",")
    case None => Match([], s)
    case Some(r1) =>
      match ParseVariableDeclaration(r1)
      case NoMatch => Match([], s)
      case Abort => Abort
      case Match(d, r2) =>
        match ParseVarDeclarationTail(r2)
        case Match(more, r3) => Match([d] + more, r3)
        case _ => Abort
  }

  /** variable_declaration = identifier >> -("=" >> assignment_expression) */
  function ParseVariableDeclaration(s: string): (r: Parsed<VarDeclaration>)
    ensures Progress(s, r)
    ensures r.NoMatch? <==> IdentifierToken(s).None?
    ensures r.Match? ==> r.value.name == IdentifierToken(s).value.0
    ensures r.Match? && r.value.assignment.Some? ==> Lit(IdentifierToken(s).value.1, "=").Some?
    ensures r.Match? && r.value.assignment.None? ==> r.rest == IdentifierToken(s).value.1
    ensures r.Match? && r.value.assignment.Some? ==>
              IdentifierToken(s).Some? && Lit(IdentifierToken(s).value.1, "=").Some?
              && ParseAssignmentExpression(Lit(IdentifierToken(s).value.1, "=").value).Match?
              && r.value.assignment.value == ParseAssignmentExpression(Lit(IdentifierToken(s).value.1, "=").value).value
    ensures r.Match? && r.value.assignment.None? ==>
              IdentifierToken(s).Some?
              && (Lit(IdentifierToken(s).value.1, "=").None?
                  || ParseAssignmentExpression(Lit(IdentifierToken(s).value.1, "=").value).NoMatch?)
    decreases |s|, 93
  {
    match IdentifierToken(s)
    case None => NoMatch
    case Some((name, r1)) =>
      match Lit(r1, "=")
      case None => Match(VarDeclaration(name, None), r1)
      case Some(r2) =>
        match ParseAssignmentExpression(r2)
        case Match(a, r3) => Match(VarDeclaration(name, Some(a)), r3)
        case NoMatch => Match(VarDeclaration(name, None), r1)
        case Abort => Abort
  }

  /** empty_statement = ";" */
  function ParseEmptyStatement(s: string): (r: Parsed<Statement>)
    ensures Progress(s, r)
    ensures r.Match? <==> Lit(s, ";").Some?
    ensures r.Match? ==> r.value == Noop && r.rest == Lit(s, ";").value
  {
    match Lit(s, ";")
    case None => NoMatch
    case Some(r1) => Match(Noop, r1)
  }

  /** if_statement = "if" >> "(" >> expression >> ")" >> statement >> -("else" >> statement) */
  function ParseIfStatement(s: string): (r: Parsed<Statement>)
    ensures Progress(s, r)
    ensures Lit(s, "if").None? ==> r.NoMatch?
    ensures r.Match? ==>
              r.value.IfStatement? && Lit(s, "if").Some? && ParseCondition(Lit(s, "if").value).Match?
              && r.value.ifStatement.condition == ParseCondition(Lit(s, "if").value).value
    ensures r.Match? && r.value.ifStatement.falseClause.None? ==>
              Lit(r.rest, "else").None? || ParseStatement(Lit(r.rest, "else").value).NoMatch?
    ensures r.Match? ==>
              Lit(s, "if").Some? && ParseCondition(Lit(s, "if").value).Match?
              && (var t := ParseStatement(ParseCondition(Lit(s, "if").value).rest);
                  t.Match? && r.value.ifStatement.trueClause == t.value
                  && (r.value.ifStatement.falseClause.None? ==>
                        r.rest == t.rest && (Lit(t.rest, "else").None? || ParseStatement(Lit(t.rest, "else").value).NoMatch?))
                  && (r.value.ifStatement.falseClause.Some? ==>
                        Lit(t.rest, "else").Some? && ParseStatement(Lit(t.rest, "else").value).Match?
                        && r.value.ifStatement.falseClause.value == ParseStatement(Lit(t.rest, "else").value).value))
    decreases |s|, 95
  {
    match Lit(s, "if")
    case None => NoMatch
    case Some(r1) =>
      match ParseCondition(r1)
      case NoMatch => NoMatch
      case Abort => Abort
      case Match(c, r2) =>
        match ParseStatement(r2)
        case NoMatch => NoMatch
        case Abort => Abort
        case Match(t, r3) =>
          match Lit(r3, "else")
          case None => Match(IfStatement(If(c, t, None)), r3)
          case Some(r4) =>
            match ParseStatement(r4)
            case NoMatch => Match(IfStatement(If(c, t, None)), r3)
            case Abort => Abort
            case Match(f, r5) => Match(IfStatement(If(c, t, Some(f))), r5)
  }

  /** `"(" >> expression >> ")"`, a parenthesised condition. */
  function ParseCondition(s: string): (r: Parsed<Expression>)
    ensures Progress(s, r)
    ensures Lit(s, "(").None? ==> r.NoMatch?
    ensures r.Match? ==>
              Lit(s, "(").Some? && ParseExpression(Lit(s, "(").value).Match? && r.value == ParseExpression(Lit(s, "(").value).value
              && Lit(ParseExpression(Lit(s, "(").value).rest, ")") == Some(r.rest)
    decreases |s|, 27
  {
    match Lit(s, "(")
    case None => NoMatch
    case Some(r1) =>
      match ParseExpression(r1)
      case NoMatch => NoMatch
      case Abort => Abort
      case Match(e, r2) =>
        match Lit(r2, ")")
        case None => NoMatch
        case Some(r3) => Match(e, r3)
  }

  /** do_while_statement = "do" >> statement >> "while" >> "(" >> expression >> ")" > ";" */
  function ParseDoWhileStatement(s: string): (r: Parsed<Statement>)
    ensures Progress(s, r)
    ensures Lit(s, "do").None? ==> r.NoMatch?
    ensures r.Match? ==>
              r.value.DoWhileStatement? && Lit(s, "do").Some? && ParseStatement(Lit(s, "do").value).Match?
              && r.value.doWhile.statement == ParseStatement(Lit(s, "do").value).value
    ensures r.Match? ==>
              Lit(s, "do").Some? && ParseStatement(Lit(s, "do").value).Match?
              && Lit(ParseStatement(Lit(s, "do").value).rest, "while").Some?
              && ParseCondition(Lit(ParseStatement(Lit(s, "do").value).rest, "while").value).Match?
              && r.value.doWhile.condition == ParseCondition(Lit(ParseStatement(Lit(s, "do").value).rest, "while").value).value
    decreases |s|, 95
  {
    match Lit(s, "do")
    case None => NoMatch
    case Some(r1) =>
      match ParseStatement(r1)
      case NoMatch => NoMatch
      case Abort => Abort
      case Match(body, r2) =>
        match Lit(r2, "while")
        case None => NoMatch
        case Some(r3) =>
          match ParseCondition(r3)
          case NoMatch => NoMatch
          case Abort => Abort
          case Match(c, r4) =>
            match Lit(r4, ";")
            case None => Abort
            case Some(r5) => Match(DoWhileStatement(DoWhile(body, c)), r5)
  }

  /** while_statement = "while" >> "(" >> expression >> ")" >> statement */
  function ParseWhileStatement(s: string): (r: Parsed<Statement>)
    ensures Progress(s, r)
    ensures Lit(s, "while").None? ==> r.NoMatch?
    ensures r.Match? ==>
              r.value.WhileStatement? && Lit(s, "while").Some? && ParseCondition(Lit(s, "while").value).Match?
              && r.value.whileStatement.condition == ParseCondition(Lit(s, "while").value).value
    ensures r.Match? ==>
              Lit(s, "while").Some? && ParseCondition(Lit(s, "while").value).Match?
              && ParseStatement(ParseCondition(Lit(s, "while").value).rest).Match?
              && r.value.whileStatement.statement == ParseStatement(ParseCondition(Lit(s, "while").value).rest).value
    decreases |s|, 95
  {
    match Lit(s, "while")
    case None => NoMatch
    case Some(r1) =>
      match ParseCondition(r1)
      case NoMatch => NoMatch
      case Abort => Abort
      case Match(c, r2) =>
        match ParseStatement(r2)
        case NoMatch => NoMatch
        case Abort => Abort
        case Match(body, r3) => Match(WhileStatement(While(c, body)), r3)
  }

  /** `-expression` */
  function ParseOptionalExpression(s: string): (r: Parsed<Option<Expression>>)
    ensures !r.NoMatch? && (r.Match? ==> |r.rest| <= |s|)
    ensures Blank(s) ==> r == Match(None, s)
    ensures ParseExpression(s).NoMatch? ==> r == Match(None, s)
    ensures r.Match? && r.value.Some? ==> ParseExpression(s).Match? && r.value.value == ParseExpression(s).value
    decreases |s|, 51
  {
    match ParseExpression(s)
    case NoMatch => Match(None, s)
    case Abort => Abort
    case Match(e, r1) => Match(Some(e), r1)
  }

  /** `-expression >> ";" >> -expression >> ")" >> statement`, the part the
      two counted for loops share after their initialization. */
  function ParseForTail(s: string): (r: Parsed<(Option<Expression>, Option<Expression>, Statement)>)
    ensures r.Match? ==> |r.rest| < |s|
    ensures r.Match? ==> ParseOptionalExpression(s).Match? && r.value.0 == ParseOptionalExpression(s).value
    ensures r.Match? ==>
              ParseOptionalExpression(s).Match? && Lit(ParseOptionalExpression(s).rest, ";").Some?
              && (var action := ParseOptionalExpression(Lit(ParseOptionalExpression(s).rest, ";").value);
                  action.Match? && r.value.1 == action.value && Lit(action.rest, ")").Some?
                  && ParseStatement(Lit(action.rest, ")").value).Match?
                  && r.value.2 == ParseStatement(Lit(action.rest, ")").value).value
                  && r.rest == ParseStatement(Lit(action.rest, ")").value).rest)
    decreases |s|, 95
  {
    match ParseOptionalExpression(s)
    case Match(c, r1) =>
      (match Lit(r1, ";")
       case None => NoMatch
       case Some(r2) =>
         match ParseOptionalExpression(r2)
         case Match(a, r3) =>
           (match Lit(r3, ")")
            case None => NoMatch
            case Some(r4) =>
              match ParseStatement(r4)
              case NoMatch => NoMatch
              case Abort => Abort
              case Match(body, r5) => Match((c, a, body), r5))
         case _ => Abort)
    case _ => Abort
  }

  /** for_statement = "for" >> "(" >> -expression >> ";" >> -expression >> ";" >> -expression >> ")" >> statement */
  function ParseForStatement(s: string): (r: Parsed<Statement>)
    ensures Progress(s, r)
    ensures Lit(s, "for").None? ==> r.NoMatch?
    ensures r.Match? ==> r.value.ForStatement? && Lit(s, "for").Some? && Lit(Lit(s, "for").value, "(").Some?
    ensures r.Match? ==>
              Lit(s, "for").Some? && Lit(Lit(s, "for").value, "(").Some?
              && (var init := ParseOptionalExpression(Lit(Lit(s, "for").value, "(").value);
                  init.Match? && r.value.forStatement.initialization == init.value
                  && Lit(init.rest, ";").Some? && ParseForTail(Lit(init.rest, ";").value).Match?
                  && ParseForTail(Lit(init.rest, ";").value).value
                       == (r.value.forStatement.condition, r.value.forStatement.action, r.value.forStatement.statement))
    decreases |s|, 95
  {
    match Lit(s, "for")
    case None => NoMatch
    case Some(r1) =>
      match Lit(r1, "(")
      case None => NoMatch
      case Some(r2) =>
        match ParseOptionalExpression(r2)
        case Match(init, r3) =>
          (match Lit(r3, ";")
           case None => NoMatch
           case Some(r4) =>
             match ParseForTail(r4)
             case NoMatch => NoMatch
             case Abort => Abort
             case Match((c, a, body), r5) => Match(ForStatement(For(init, c, a, body)), r5))
        case _ => Abort
  }

  /** for_with_var_statement = "for" >> "(" >> "var" >> (variable_declaration % ",") >> ";" >> -expression >> ";" >> -expression >> ")" >> statement */
  function ParseForWithVarStatement(s: string): (r: Parsed<Statement>)
    ensures Progress(s, r)
    ensures Lit(s, "for").None? ==> r.NoMatch?
    ensures r.Match? ==>
              r.value.ForWithVarStatement? && Lit(s, "for").Some? && Lit(Lit(s, "for").value, "(").Some?
              && Lit(Lit(Lit(s, "for").value, "(").value, "var").Some?
    ensures r.Match? ==>
              Lit(s, "for").Some? && Lit(Lit(s, "for").value, "(").Some?
              && Lit(Lit(Lit(s, "for").value, "(").value, "var").Some?
              && (var v := ParseVarDeclarations(Lit(Lit(Lit(s, "for").value, "(").value, "var").value);
                  v.Match? && r.value.forWithVar.initialization == v.value
                  && Lit(v.rest, ";").Some? && ParseForTail(Lit(v.rest, ";").value).Match?
                  && ParseForTail(Lit(v.rest, ";").value).value
                       == (r.value.forWithVar.condition, r.value.forWithVar.action, r.value.forWithVar.statement))
    decreases |s|, 95
  {
    match Lit(s, "for")
    case None => NoMatch
    case Some(r1) =>
      match Lit(r1, "(")
      case None => NoMatch
      case Some(r2) =>
        match Lit(r2, "var")
        case None => NoMatch
        case Some(r3) =>
          match ParseVarDeclarations(r3)
          case NoMatch => NoMatch
          case Abort => Abort
          case Match(v, r4) =>
            match Lit(r4, ";")
            case None => NoMatch
            case Some(r5) =>
              match ParseForTail(r5)
              case NoMatch => NoMatch
              case Abort => Abort
              case Match((c, a, body), r6) => Match(ForWithVarStatement(ForWithVar(v, c, a, body)), r6)
  }

  /** `"in" >> expression >> ")" >> statement`, shared by the two for-in loops. */
  function ParseForeachTail(s: string): (r: Parsed<(Expression, Statement)>)
    ensures r.Match? ==> |r.rest| < |s|
    ensures Lit(s, "in").None? ==> r.NoMatch?
    ensures r.Match? ==>
              Lit(s, "in").Some? && ParseExpression(Lit(s, "in").value).Match?
              && r.value.0 == ParseExpression(Lit(s, "in").value).value
    ensures r.Match? ==>
              Lit(s, "in").Some? && ParseExpression(Lit(s, "in").value).Match?
              && Lit(ParseExpression(Lit(s, "in").value).rest, ")").Some?
              && ParseStatement(Lit(ParseExpression(Lit(s, "in").value).rest, ")").value).Match?
              && r.value.1 == ParseStatement(Lit(ParseExpression(Lit(s, "in").value).rest, ")").value).value
    decreases |s|, 95
  {
    match Lit(s, "in")
    case None => NoMatch
    case Some(r1) =>
      match ParseExpression(r1)
      case NoMatch => NoMatch
      case Abort => Abort
      case Match(list, r2) =>
        match Lit(r2, ")")
        case None => NoMatch
        case Some(r3) =>
          match ParseStatement(r3)
          case NoMatch => NoMatch
          case Abort => Abort
          case Match(body, r4) => Match((list, body), r4)
  }

  /** foreach_statement = "for" >> "(" >> lhs_expression >> "in" >> expression >> ")" >> statement */
  function ParseForeachStatement(s: string): (r: Parsed<Statement>)
    ensures Progress(s, r)
    ensures Lit(s, "for").None? ==> r.NoMatch?
    ensures r.Match? ==>
              r.value.ForeachStatement? && Lit(s, "for").Some? && Lit(Lit(s, "for").value, "(").Some?
              && ParseLhsExpression(Lit(Lit(s, "for").value, "(").value).Match?
              && r.value.foreach.item == ParseLhsExpression(Lit(Lit(s, "for").value, "(").value).value
    ensures r.Match? ==>
              Lit(s, "for").Some? && Lit(Lit(s, "for").value, "(").Some?
              && ParseLhsExpression(Lit(Lit(s, "for").value, "(").value).Match?
              && (var tail := ParseForeachTail(ParseLhsExpression(Lit(Lit(s, "for").value, "(").value).rest);
                  tail.Match? && r.value.foreach.list == tail.value.0 && r.value.foreach.statement == tail.value.1)
    decreases |s|, 95
  {
    match Lit(s, "for")
    case None => NoMatch
    case Some(r1) =>
      match Lit(r1, "(")
      case None => NoMatch
      case Some(r2) =>
        match ParseLhsExpression(r2)
        case NoMatch => NoMatch
        case Abort => Abort
        case Match(item, r3) =>
          match ParseForeachTail(r3)
          case NoMatch => NoMatch
          case Abort => Abort
          case Match((list, body), r4) => Match(ForeachStatement(Foreach(item, list, body)), r4)
  }

  /** foreach_with_var_statement = "for" >> "(" >> "var" >> variable_declaration >> "in" >> expression >> ")" >> statement */
  function ParseForeachWithVarStatement(s: string): (r: Parsed<Statement>)
    ensures Progress(s, r)
    ensures Lit(s, "for").None? ==> r.NoMatch?
    ensures r.Match? ==>
              r.value.ForeachWithVarStatement? && Lit(s, "for").Some? && Lit(Lit(s, "for").value, "(").Some?
              && Lit(Lit(Lit(s, "for").value, "(").value, "var").Some?
    ensures r.Match? ==>
              Lit(s, "for").Some? && Lit(Lit(s, "for").value, "(").Some?
              && Lit(Lit(Lit(s, "for").value, "(").value, "var").Some?
              && (var item := ParseVariableDeclaration(Lit(Lit(Lit(s, "for").value, "(").value, "var").value);
                  item.Match? && r.value.foreachWithVar.item == item.value
                  && ParseForeachTail(item.rest).Match?
                  && r.value.foreachWithVar.list == ParseForeachTail(item.rest).value.0
                  && r.value.foreachWithVar.statement == ParseForeachTail(item.rest).value.1)
    decreases |s|, 95
  {
    match Lit(s, "for")
    case None => NoMatch
    case Some(r1) =>
      match Lit(r1, "(")
      case None => NoMatch
      case Some(r2) =>
        match Lit(r2, "var")
        case None => NoMatch
        case Some(r3) =>
          match ParseVariableDeclaration(r3)
          case NoMatch => NoMatch
          case Abort => Abort
          case Match(item, r4) =>
            match ParseForeachTail(r4)
            case NoMatch => NoMatch
            case Abort => Abort
            case Match((list, body), r5) =>
              Match(ForeachWithVarStatement(ForeachWithVar(item, list, body)), r5)
  }

  /** `!eol > -identifier > ";"` after continue or break: the optional label. */
  function ParseJumpLabel(s: string): (r: Parsed<Option<string>>)
    ensures !r.NoMatch? && (r.Match? ==> |r.rest| < |s|)
    ensures !NotEol(s) ==> r.Abort?
    ensures r.Match? ==> (r.value.Some? <==> IdentifierToken(s).Some?)
    ensures r.Match? && r.value.Some? ==> r.value.value == IdentifierToken(s).value.0
  {
    if !NotEol(s) then Abort
    else
      match IdentifierToken(s)
      case None =>
        (match Lit(s, ";")
         case None => Abort
         case Some(r1) => Match(None, r1))
      case Some((name, r1)) =>
        match Lit(r1, ";")
        case None => Abort
        case Some(r2) => Match(Some(name), r2)
  }

  /** continue_statement = "continue" > !eol > -identifier > ";" */
  function ParseContinueStatement(s: string): (r: Parsed<Statement>)
    ensures r.Match? ==> r.value.Continue?
    ensures Lit(s, "continue").Some? && !NotEol(Lit(s, "continue").value) ==> r.Abort?
    ensures Progress(s, r)
    ensures r.NoMatch? <==> Lit(s, "continue").None?
    ensures r.Match? ==>
              ParseJumpLabel(Lit(s, "continue").value).Match?
              && r.value.labelName == ParseJumpLabel(Lit(s, "continue").value).value
  {
    match Lit(s, "continue")
    case None => NoMatch
    case Some(r1) =>
      match ParseJumpLabel(r1)
      case Match(name, r2) => Match(Continue(name), r2)
      case _ => Abort
  }

  /** break_statement = "break" > !eol > -identifier > ";" */
  function ParseBreakStatement(s: string): (r: Parsed<Statement>)
    ensures r.Match? ==> r.value.Break?
    ensures Lit(s, "break").Some? && !NotEol(Lit(s, "break").value) ==> r.Abort?
    ensures Progress(s, r)
    ensures r.NoMatch? <==> Lit(s, "break").None?
    ensures r.Match? ==>
              ParseJumpLabel(Lit(s, "break").value).Match?
              && r.value.labelName == ParseJumpLabel(Lit(s, "break").value).value
  {
    match Lit(s, "break")
    case None => NoMatch
    case Some(r1) =>
      match ParseJumpLabel(r1)
      case Match(name, r2) => Match(Break(name), r2)
      case _ => Abort
  }

  /** return_statement = "return" > !eol > -expression > ";" */
  function ParseReturnStatement(s: string): (r: Parsed<Statement>)
    ensures r.Match? ==> r.value.Return?
    ensures Lit(s, "return").Some? && !NotEol(Lit(s, "return").value) ==> r.Abort?
    ensures Progress(s, r)
    ensures r.NoMatch? <==> Lit(s, "return").None?
    ensures r.Match? ==>
              ParseOptionalExpression(Lit(s, "return").value).Match?
              && r.value.result == ParseOptionalExpression(Lit(s, "return").value).value
    decreases |s|, 95
  {
    match Lit(s, "return")
    case None => NoMatch
    case Some(r1) =>
      if !NotEol(r1) then Abort
      else
        match ParseOptionalExpression(r1)
        case Match(e, r2) =>
          (match Lit(r2, ";")
           case None => Abort
           case Some(r3) => Match(Return(e), r3))
        case _ => Abort
  }

  /** with_statement = "with" > "(" > expression > ")" > statement */
  function ParseWithStatement(s: string): (r: Parsed<Statement>)
    ensures Progress(s, r)
    ensures r.NoMatch? <==> Lit(s, "with").None?
    ensures r.Match? ==>
              r.value.WithStatement? && ParseExpectedCondition(Lit(s, "with").value).Match?
              && r.value.with.context == ParseExpectedCondition(Lit(s, "with").value).value
    ensures r.Match? ==>
              Lit(s, "with").Some? && ParseExpectedCondition(Lit(s, "with").value).Match?
              && ParseStatement(ParseExpectedCondition(Lit(s, "with").value).rest).Match?
              && r.value.with.statement == ParseStatement(ParseExpectedCondition(Lit(s, "with").value).rest).value
    decreases |s|, 95
  {
    match Lit(s, "with")
    case None => NoMatch
    case Some(r1) =>
      match ParseExpectedCondition(r1)
      case Match(c, r2) =>
        (match ParseStatement(r2)
         case Match(body, r3) => Match(WithStatement(With(c, body)), r3)
         case _ => Abort)
      case _ => Abort
  }

  /** `"(" > expression > ")"` after an expectation: any failure aborts. */
  function ParseExpectedCondition(s: string): (r: Parsed<Expression>)
    ensures !r.NoMatch? && (r.Match? ==> |r.rest| < |s|)
    ensures Lit(s, "(").None? ==> r.Abort?
    ensures r.Match? ==>
              Lit(s, "(").Some? && ParseExpression(Lit(s, "(").value).Match?
              && r.value == ParseExpression(Lit(s, "(").value).value
    decreases |s|, 95
  {
    match Lit(s, "(")
    case None => Abort
    case Some(r1) =>
      match ParseExpression(r1)
      case Match(e, r2) =>
        (match Lit(r2, ")")
         case None => Abort
         case Some(r3) => Match(e, r3))
      case _ => Abort
  }

  /** labelled_statement = identifier >> ":" > statement */
  function ParseLabelledStatement(s: string): (r: Parsed<Statement>)
    ensures Progress(s, r)
    ensures IdentifierToken(s).None? ==> r.NoMatch?
    ensures r.Match? ==>
              r.value.Labelled? && IdentifierToken(s).Some? && r.value.labelled.labelName == IdentifierToken(s).value.0
              && Lit(IdentifierToken(s).value.1, ":").Some?
    ensures IdentifierToken(s).Some? && Lit(IdentifierToken(s).value.1, ":").Some? ==> !r.NoMatch?
    ensures r.Match? ==>
              IdentifierToken(s).Some? && Lit(IdentifierToken(s).value.1, ":").Some?
              && ParseStatement(Lit(IdentifierToken(s).value.1, ":").value).Match?
              && r.value.labelled.statement == ParseStatement(Lit(IdentifierToken(s).value.1, ":").value).value
    decreases |s|, 95
  {
    match IdentifierToken(s)
    case None => NoMatch
    case Some((name, r1)) =>
      match Lit(r1, ":")
      case None => NoMatch
      case Some(r2) =>
        match ParseStatement(r2)
        case Match(st, r3) => Match(Labelled(LabelledStatement(name, st)), r3)
        case _ => Abort
  }

  /** switch_statement = "switch" > "(" > expression > ")" > "{" > *case_clause > -default_clause > *case_clause > "}" */
  function ParseSwitchStatement(s: string): (r: Parsed<Statement>)
    ensures Progress(s, r)
    ensures r.NoMatch? <==> Lit(s, "switch").None?
    ensures r.Match? ==>
              r.value.SwitchStatement? && ParseExpectedCondition(Lit(s, "switch").value).Match?
              && r.value.switch.condition == ParseExpectedCondition(Lit(s, "switch").value).value
    ensures r.Match? ==>
              Lit(s, "switch").Some? && ParseExpectedCondition(Lit(s, "switch").value).Match?
              && (var afterCondition := ParseExpectedCondition(Lit(s, "switch").value).rest;
                  Lit(afterCondition, "{").Some? && ParseCaseClauses(Lit(afterCondition, "{").value).Match?
                  && r.value.switch.clauses == ParseCaseClauses(Lit(afterCondition, "{").value).value
                  && ParseSwitchTail(ParseCaseClauses(Lit(afterCondition, "{").value).rest).Match?
                  && ParseSwitchTail(ParseCaseClauses(Lit(afterCondition, "{").value).rest).value
                       == (r.value.switch.defaultClause, r.value.switch.otherClauses))
    decreases |s|, 95
  {
    match Lit(s, "switch")
    case None => NoMatch
    case Some(r1) =>
      match ParseExpectedCondition(r1)
      case Match(c, r2) =>
        (match Lit(r2, "{")
         case None => Abort
         case Some(r3) =>
           match ParseCaseClauses(r3)
           case Match(clauses, r4) =>
             (match ParseSwitchTail(r4)
              case Match((default, others), r5) => Match(SwitchStatement(Switch(c, clauses, default, others)), r5)
              case _ => Abort)
           case _ => Abort)
      case _ => Abort
  }

  /** `-default_clause > *case_clause > "}"`, the end of a switch body. */
  function ParseSwitchTail(s: string): (r: Parsed<(Option<StatementList>, seq<Case>)>)
    ensures !r.NoMatch? && (r.Match? ==> |r.rest| < |s|)
    ensures r.Match? ==> (r.value.0.Some? <==> Lit(s, "default").Some?)
    ensures r.Match? && r.value.0.Some? ==>
              ParseDefaultClause(s).Match? && r.value.0.value.statements == ParseDefaultClause(s).value
    ensures r.Match? && r.value.0.None? ==> ParseCaseClauses(s).Match? && r.value.1 == ParseCaseClauses(s).value
    ensures r.Match? && r.value.0.Some? ==>
              ParseDefaultClause(s).Match? && ParseCaseClauses(ParseDefaultClause(s).rest).Match?
              && r.value.1 == ParseCaseClauses(ParseDefaultClause(s).rest).value
    decreases |s|, 95
  {
    var (default, r1) := match ParseDefaultClause(s)
      case Match(d, r1) => (Some(StatementList(d)), r1)
      case _ => (None, s);
    if ParseDefaultClause(s).Abort? then Abort
    else
      match ParseCaseClauses(r1)
      case Match(others, r2) =>
        (match Lit(r2, "}")
         case None => Abort
         case Some(r3) => Match((default, others), r3))
      case _ => Abort
  }

  /** `*case_clause` */
  function ParseCaseClauses(s: string): (r: Parsed<seq<Case>>)
    ensures ListProgress(s, r)
    ensures ParseCaseClause(s).NoMatch? ==> r == Match([], s)
    ensures r.Match? && r.value != [] ==> ParseCaseClause(s).Match? && r.value[0] == ParseCaseClause(s).value
    ensures r.Match? ==> ParseCaseClause(r.rest).NoMatch?
    ensures r.Match? && r.value != [] ==>
              ParseCaseClause(s).Match? && ParseCaseClauses(ParseCaseClause(s).rest).Match?
              && r.value[1..] == ParseCaseClauses(ParseCaseClause(s).rest).value && r.rest == ParseCaseClauses(ParseCaseClause(s).rest).rest
    decreases |s|, 94
  {
    match ParseCaseClause(s)
    case NoMatch => Match([], s)
    case Abort => Abort
    case Match(c, r1) =>
      match ParseCaseClauses(r1)
      case Match(more, r2) => Match([c] + more, r2)
      case _ => Abort
  }

  /** case_clause = "case" > expression > ":" > *statement */
  function ParseCaseClause(s: string): (r: Parsed<Case>)
    ensures Progress(s, r)
    ensures r.NoMatch? <==> Lit(s, "case").None?
    ensures r.Match? ==>
              ParseExpression(Lit(s, "case").value).Match?
              && r.value.matchClause == ParseExpression(Lit(s, "case").value).value
    ensures r.Match? ==>
              Lit(s, "case").Some? && ParseExpression(Lit(s, "case").value).Match?
              && Lit(ParseExpression(Lit(s, "case").value).rest, ":").Some?
              && ParseStatements(Lit(ParseExpression(Lit(s, "case").value).rest, ":").value).Match?
              && r.value.statements == ParseStatements(Lit(ParseExpression(Lit(s, "case").value).rest, ":").value).value
    decreases |s|, 93
  {
    match Lit(s, "case")
    case None => NoMatch
    case Some(r1) =>
      match ParseExpression(r1)
      case Match(e, r2) =>
        (match Lit(r2, ":")
         case None => Abort
         case Some(r3) =>
           match ParseStatements(r3)
           case Match(body, r4) => Match(Case(e, body), r4)
           case _ => Abort)
      case _ => Abort
  }

  /** default_clause = "default" > ":" > *statement */
  function ParseDefaultClause(s: string): (r: Parsed<seq<Statement>>)
    ensures Progress(s, r)
    ensures r.NoMatch? <==> Lit(s, "default").None?
    ensures Lit(s, "default").Some? && Lit(Lit(s, "default").value, ":").None? ==> r.Abort?
    ensures r.Match? ==>
              Lit(s, "default").Some? && Lit(Lit(s, "default").value, ":").Some?
              && ParseStatements(Lit(Lit(s, "default").value, ":").value).Match?
              && r.value == ParseStatements(Lit(Lit(s, "default").value, ":").value).value
    decreases |s|, 93
  {
    match Lit(s, "default")
    case None => NoMatch
    case Some(r1) =>
      match Lit(r1, ":")
      case None => Abort
      case Some(r2) =>
        match ParseStatements(r2)
        case Match(body, r3) => Match(body, r3)
        case _ => Abort
  }

  /** throw_statement = "throw" > !eol > expression > ";" */
  function ParseThrowStatement(s: string): (r: Parsed<Statement>)
    ensures r.Match? ==> r.value.Throw?
    ensures Lit(s, "throw").Some? && !NotEol(Lit(s, "throw").value) ==> r.Abort?
    ensures Progress(s, r)
    ensures r.NoMatch? <==> Lit(s, "throw").None?
    ensures r.Match? ==>
              ParseExpression(Lit(s, "throw").value).Match?
              && r.value.thrown == ParseExpression(Lit(s, "throw").value).value
    decreases |s|, 95
  {
    match Lit(s, "throw")
    case None => NoMatch
    case Some(r1) =>
      if !NotEol(r1) then Abort
      else
        match ParseExpression(r1)
        case Match(e, r2) =>
          (match Lit(r2, ";")
           case None => Abort
           case Some(r3) => Match(Throw(e), r3))
        case _ => Abort
  }

  /** try_statement = "try" >> "{" >> *statement >> "}" >> (catch_block || finally_block) */
  function ParseTryStatement(s: string): (r: Parsed<Statement>)
    ensures r.Match? ==> r.value.TryStatement?
                         && (r.value.try.catchBlock.Some? || r.value.try.finallyBlock.Some?)
    ensures Progress(s, r)
    ensures Lit(s, "try").None? ==> r.NoMatch?
    ensures r.Match? ==>
              Lit(s, "try").Some? && Lit(Lit(s, "try").value, "{").Some?
              && ParseStatements(Lit(Lit(s, "try").value, "{").value).Match?
              && r.value.try.statements == ParseStatements(Lit(Lit(s, "try").value, "{").value).value
    ensures r.Match? ==>
              Lit(s, "try").Some? && Lit(Lit(s, "try").value, "{").Some?
              && (var body := ParseStatements(Lit(Lit(s, "try").value, "{").value);
                  body.Match? && Lit(body.rest, "}").Some? && ParseCatchOrFinally(Lit(body.rest, "}").value).Match?
                  && ParseCatchOrFinally(Lit(body.rest, "}").value).value == (r.value.try.catchBlock, r.value.try.finallyBlock))
    decreases |s|, 95
  {
    match Lit(s, "try")
    case None => NoMatch
    case Some(r1) =>
      match Lit(r1, "{")
      case None => NoMatch
      case Some(r2) =>
        match ParseStatements(r2)
        case Match(body, r3) =>
          (match Lit(r3, "}")
           case None => NoMatch
           case Some(r4) =>
             match ParseCatchOrFinally(r4)
             case NoMatch => NoMatch
             case Abort => Abort
             case Match((c, f), r5) => Match(TryStatement(Try(body, c, f)), r5))
        case _ => Abort
  }

  /** `catch_block || finally_block`: either one or both, in that order; neither is a soft failure. */
  function ParseCatchOrFinally(s: string): (r: Parsed<(Option<Catch>, Option<StatementList>)>)
    ensures Progress(s, r)
    ensures r.Match? ==> r.value.0.Some? || r.value.1.Some?
    ensures r.NoMatch? <==> ParseCatchBlock(s).NoMatch? && ParseFinallyBlock(s).NoMatch?
    ensures r.Match? ==> (r.value.0.Some? <==> ParseCatchBlock(s).Match?)
    ensures r.Match? && r.value.0.Some? ==> r.value.0.value == ParseCatchBlock(s).value
    ensures r.Match? && ParseCatchBlock(s).Match? ==>
              (r.value.1.Some? <==> ParseFinallyBlock(ParseCatchBlock(s).rest).Match?)
    ensures r.Match? && r.value.1.Some? ==>
              (var afterCatch := if ParseCatchBlock(s).Match? then ParseCatchBlock(s).rest else s;
               ParseFinallyBlock(afterCatch).Match? && r.value.1.value.statements == ParseFinallyBlock(afterCatch).value)
    decreases |s|, 94
  {
    match ParseCatchBlock(s)
    case Abort => Abort
    case Match(c, r1) =>
      (match ParseFinallyBlock(r1)
       case Abort => Abort
       case NoMatch => Match((Some(c), None), r1)
       case Match(f, r2) => Match((Some(c), Some(StatementList(f))), r2))
    case NoMatch =>
      match ParseFinallyBlock(s)
      case Abort => Abort
      case NoMatch => NoMatch
      case Match(f, r2) => Match((None, Some(StatementList(f))), r2)
  }

  /** `"{" >> *statement > "}"` after an expectation: any failure aborts. */
  function ParseExpectedBlock(s: string): (r: Parsed<seq<Statement>>)
    ensures !r.NoMatch? && (r.Match? ==> |r.rest| < |s|)
    ensures Lit(s, "{").None? ==> r.Abort?
    ensures r.Match? ==>
              Lit(s, "{").Some? && ParseStatements(Lit(s, "{").value).Match?
              && r.value == ParseStatements(Lit(s, "{").value).value
    ensures r.Match? ==>
              Lit(s, "{").Some? && ParseStatements(Lit(s, "{").value).Match?
              && Lit(ParseStatements(Lit(s, "{").value).rest, "}") == Some(r.rest)
    decreases |s|, 95
  {
    match Lit(s, "{")
    case None => Abort
    case Some(r1) =>
      match ParseStatements(r1)
      case Match(body, r2) =>
        (match Lit(r2, "}")
         case None => Abort
         case Some(r3) => Match(body, r3))
      case _ => Abort
  }

  /** catch_block = "catch" > "(" > identifier > ")" > "{" >> *statement > "}" */
  function ParseCatchBlock(s: string): (r: Parsed<Catch>)
    ensures Progress(s, r)
    ensures r.NoMatch? <==> Lit(s, "catch").None?
    ensures r.Match? ==>
              Lit(Lit(s, "catch").value, "(").Some?
              && IdentifierToken(Lit(Lit(s, "catch").value, "(").value).Some?
              && r.value.exceptionName == IdentifierToken(Lit(Lit(s, "catch").value, "(").value).value.0
    ensures r.Match? ==>
              Lit(s, "catch").Some? && Lit(Lit(s, "catch").value, "(").Some?
              && IdentifierToken(Lit(Lit(s, "catch").value, "(").value).Some?
              && (var afterName := IdentifierToken(Lit(Lit(s, "catch").value, "(").value).value.1;
                  Lit(afterName, ")").Some? && ParseExpectedBlock(Lit(afterName, ")").value).Match?
                  && r.value.statements == ParseExpectedBlock(Lit(afterName, ")").value).value)
    decreases |s|, 93
  {
    match Lit(s, "catch")
    case None => NoMatch
    case Some(r1) =>
      match Lit(r1, "(")
      case None => Abort
      case Some(r2) =>
        match IdentifierToken(r2)
        case None => Abort
        case Some((name, r3)) =>
          match Lit(r3, ")")
          case None => Abort
          case Some(r4) =>
            match ParseExpectedBlock(r4)
            case Match(body, r5) => Match(Catch(name, body), r5)
            case _ => Abort
  }

  /** finally_block = "finally" > "{" >> *statement > "}" */
  function ParseFinallyBlock(s: string): (r: Parsed<seq<Statement>>)
    ensures Progress(s, r)
    ensures r.NoMatch? <==> Lit(s, "finally").None?
    ensures r.Match? ==>
              ParseExpectedBlock(Lit(s, "finally").value).Match?
              && r.value == ParseExpectedBlock(Lit(s, "finally").value).value
    decreases |s|, 93
  {
    match Lit(s, "finally")
    case None => NoMatch
    case Some(r1) =>
      match ParseExpectedBlock(r1)
      case Match(body, r2) => Match(body, r2)
      case _ => Abort
  }

  /** `string("debugger") > ";"` */
  function ParseDebuggerStatement(s: string): (r: Parsed<Statement>)
    ensures Progress(s, r)
    ensures r.NoMatch? <==> Lit(s, "debugger").None?
    ensures r.Match? ==> r.value == Debugger("debugger") && Lit(Lit(s, "debugger").value, ";") == Some(r.rest)
    ensures Lit(s, "debugger").Some? && Lit(Lit(s, "debugger").value, ";").None? ==> r.Abort?
  {
    match Lit(s, "debugger")
    case None => NoMatch
    case Some(r1) =>
      match Lit(r1, ";")
      case None => Abort
      case Some(r2) => Match(Debugger("debugger"), r2)
  }

  /** `"{" > *statement > "}"` */
  function ParseBlock(s: string): (r: Parsed<Statement>)
    ensures Progress(s, r)
    ensures r.NoMatch? <==> Lit(s, "{").None?
    ensures r.Match? ==>
              r.value.Block? && ParseStatements(Lit(s, "{").value).Match?
              && r.value.statements == ParseStatements(Lit(s, "{").value).value
    ensures r.Match? ==>
              Lit(s, "{").Some? && ParseStatements(Lit(s, "{").value).Match?
              && Lit(ParseStatements(Lit(s, "{").value).rest, "}") == Some(r.rest)
    decreases |s|, 95
  {
    match Lit(s, "{")
    case None => NoMatch
    case Some(r1) =>
      match ParseStatements(r1)
      case Match(body, r2) =>
        (match Lit(r2, "}")
         case None => Abort
         case Some(r3) => Match(Block(body), r3))
      case _ => Abort
  }

  // ================================================================ expressions

  /** expression = assignment_expression % ',' */
  function ParseExpression(s: string): (r: Parsed<Expression>)
    ensures Progress(s, r)
    ensures r.NoMatch? <==> ParseAssignmentExpression(s).NoMatch?
    ensures r.Match? ==> ParseAssignmentExpression(s).Match? && r.value.head == ParseAssignmentExpression(s).value
    ensures r.Match? ==>
              ParseAssignmentExpression(s).Match? && ParseExpressionTail(ParseAssignmentExpression(s).rest).Match?
              && r.value.tail == ParseExpressionTail(ParseAssignmentExpression(s).rest).value
    decreases |s|, 50
  {
    match ParseAssignmentExpression(s)
    case NoMatch => NoMatch
    case Abort => Abort
    case Match(a, r1) =>
      match ParseExpressionTail(r1)
      case Match(more, r2) => Match(Expression(a, more), r2)
      case _ => Abort
  }

  /** `*(',' >> assignment_expression)` */
  function ParseExpressionTail(s: string): (r: Parsed<seq<AssignmentExpression>>)
    ensures ListProgress(s, r)
    ensures Lit(s, ",").None? ==> r == Match([], s)
    ensures r.Match? && r.value != [] ==>
              Lit(s, ",").Some? && ParseAssignmentExpression(Lit(s, ",").value).Match?
              && r.value[0] == ParseAssignmentExpression(Lit(s, ",").value).value
    ensures r.Match? && r.value != [] ==>
              Lit(s, ",").Some? && ParseAssignmentExpression(Lit(s, ",").value).Match? && ParseExpressionTail(ParseAssignmentExpression(Lit(s, ",").value).rest).Match?
              && r.value[1..] == ParseExpressionTail(ParseAssignmentExpression(Lit(s, ",").value).rest).value && r.rest == ParseExpressionTail(ParseAssignmentExpression(Lit(s, ",").value).rest).rest
    decreases |s|, 50
  {
    match Lit(s, ",")
    case None => Match([], s)
    case Some(r1) =>
      match ParseAssignmentExpression(r1)
      case NoMatch => Match([], s)
      case Abort => Abort
      case Match(a, r2) =>
        match ParseExpressionTail(r2)
        case Match(more, r3) => Match([a] + more, r3)
        case _ => Abort
  }

  /** assignment_expression = *(lhs_expression >> assignment_operator) >> conditional_expression */
  function ParseAssignmentExpression(s: string): (r: Parsed<AssignmentExpression>)
    ensures Progress(s, r)
    ensures r.Match? ==> ParseAssignmentTargets(s).Match? && r.value.assignments == ParseAssignmentTargets(s).value
    ensures ParseAssignmentTargets(s).Match? ==>
              (r.NoMatch? <==> ParseConditionalExpression(ParseAssignmentTargets(s).rest).NoMatch?)
    ensures r.Match? ==>
              ParseAssignmentTargets(s).Match? && ParseConditionalExpression(ParseAssignmentTargets(s).rest).Match?
              && r.value.rhs == ParseConditionalExpression(ParseAssignmentTargets(s).rest).value
    decreases |s|, 49
  {
    match ParseAssignmentTargets(s)
    case Match(targets, r1) =>
      (match ParseConditionalExpression(r1)
       case NoMatch => NoMatch
       case Abort => Abort
       case Match(c, r2) => Match(AssignmentExpression(targets, c), r2))
    case _ => Abort
  }

  /** `*(lhs_expression >> assignment_operator)` */
  function ParseAssignmentTargets(s: string): (r: Parsed<seq<AssignmentOperation>>)
    ensures ListProgress(s, r)
    ensures ParseLhsExpression(s).NoMatch? ==> r == Match([], s)
    ensures r.Match? && r.value != [] ==>
              ParseLhsExpression(s).Match? && r.value[0].lhs == ParseLhsExpression(s).value
              && AssignmentOperator(ParseLhsExpression(s).rest).Some?
              && r.value[0].op == AssignmentOperator(ParseLhsExpression(s).rest).value.0
    ensures r.Match? && r.value != [] ==>
              ParseLhsExpression(s).Match? && AssignmentOperator(ParseLhsExpression(s).rest).Some?
              && ParseAssignmentTargets(AssignmentOperator(ParseLhsExpression(s).rest).value.1).Match?
              && r.value[1..] == ParseAssignmentTargets(AssignmentOperator(ParseLhsExpression(s).rest).value.1).value
              && r.rest == ParseAssignmentTargets(AssignmentOperator(ParseLhsExpression(s).rest).value.1).rest
    decreases |s|, 48
  {
    match ParseLhsExpression(s)
    case NoMatch => Match([], s)
    case Abort => Abort
    case Match(lhs, r1) =>
      match AssignmentOperator(r1)
      case None => Match([], s)
      case Some((op, r2)) =>
        match ParseAssignmentTargets(r2)
        case Match(more, r3) => Match([AssignmentOperation(lhs, op)] + more, r3)
        case _ => Abort
  }

  /** conditional_expression = logical_or_expression >> -conditional_clauses */
  function ParseConditionalExpression(s: string): (r: Parsed<ConditionalExpression>)
    ensures Progress(s, r)
    ensures r.NoMatch? <==> ParseLogicalOrExpression(s).NoMatch?
    ensures r.Match? ==> ParseLogicalOrExpression(s).Match? && r.value.lhs == ParseLogicalOrExpression(s).value
    ensures r.Match? && r.value.clauses.None? ==> Lit(r.rest, "?").None?
    ensures r.Match? && r.value.clauses.Some? ==> Lit(ParseLogicalOrExpression(s).rest, "?").Some?
    ensures r.Match? && r.value.clauses.Some? ==>
              ParseLogicalOrExpression(s).Match? && ParseConditionalClauses(ParseLogicalOrExpression(s).rest).Match?
              && r.value.clauses.value == ParseConditionalClauses(ParseLogicalOrExpression(s).rest).value
    decreases |s|, 47
  {
    match ParseLogicalOrExpression(s)
    case NoMatch => NoMatch
    case Abort => Abort
    case Match(lhs, r1) =>
      match ParseConditionalClauses(r1)
      case NoMatch => Match(ConditionalExpression(lhs, None), r1)
      case Abort => Abort
      case Match(clauses, r2) => Match(ConditionalExpression(lhs, Some(clauses)), r2)
  }

  /** conditional_clauses = '?' > assignment_expression > ':' > assignment_expression */
  function ParseConditionalClauses(s: string): (r: Parsed<ConditionalClauses>)
    ensures Progress(s, r)
    ensures r.NoMatch? <==> Lit(s, "?").None?
    ensures r.Match? ==>
              Lit(s, "?").Some? && ParseAssignmentExpression(Lit(s, "?").value).Match?
              && (var t := ParseAssignmentExpression(Lit(s, "?").value);
                  r.value.trueClause == t.value && Lit(t.rest, ":").Some?
                  && ParseAssignmentExpression(Lit(t.rest, ":").value).Match?
                  && r.value.falseClause == ParseAssignmentExpression(Lit(t.rest, ":").value).value
                  && r.rest == ParseAssignmentExpression(Lit(t.rest, ":").value).rest)
    decreases |s|, 47
  {
    match Lit(s, "?")
    case None => NoMatch
    case Some(r1) =>
      match ParseAssignmentExpression(r1)
      case Match(t, r2) =>
        (match Lit(r2, ":")
         case None => Abort
         case Some(r3) =>
           match ParseAssignmentExpression(r3)
           case Match(f, r4) => Match(ConditionalClauses(t, f), r4)
           case _ => Abort)
      case _ => Abort
  }

  // ---------------------------------------------------------------- logical and bitwise levels

  /** logical_or_expression = logical_and_expression >> *("||" >> logical_and_expression) */
  function ParseLogicalOrExpression(s: string): (r: Parsed<LogicalOrExpression>)
    ensures Progress(s, r)
    ensures r.NoMatch? <==> ParseLogicalAndExpression(s).NoMatch?
    ensures r.Match? ==> ParseLogicalAndExpression(s).Match? && r.value.lhs == ParseLogicalAndExpression(s).value
    ensures r.Match? ==>
              ParseLogicalAndExpression(s).Match? && ParseLogicalOrTail(ParseLogicalAndExpression(s).rest).Match?
              && r.value.operations == ParseLogicalOrTail(ParseLogicalAndExpression(s).rest).value && r.rest == ParseLogicalOrTail(ParseLogicalAndExpression(s).rest).rest
    decreases |s|, 46
  {
    match ParseLogicalAndExpression(s)
    case NoMatch => NoMatch
    case Abort => Abort
    case Match(lhs, r1) =>
      match ParseLogicalOrTail(r1)
      case Match(ops, r2) => Match(LogicalOrExpression(lhs, ops), r2)
      case _ => Abort
  }

  function ParseLogicalOrTail(s: string): (r: Parsed<seq<LogicalAndExpression>>)
    ensures ListProgress(s, r)
    ensures Lit(s, "||").None? ==> r == Match([], s)
    ensures r.Match? && r.value != [] ==>
              Lit(s, "||").Some? && ParseLogicalAndExpression(Lit(s, "||").value).Match?
              && r.value[0] == ParseLogicalAndExpression(Lit(s, "||").value).value
    ensures r.Match? && r.value != [] ==>
              Lit(s, "||").Some? && ParseLogicalAndExpression(Lit(s, "||").value).Match? && ParseLogicalOrTail(ParseLogicalAndExpression(Lit(s, "||").value).rest).Match?
              && r.value[1..] == ParseLogicalOrTail(ParseLogicalAndExpression(Lit(s, "||").value).rest).value && r.rest == ParseLogicalOrTail(ParseLogicalAndExpression(Lit(s, "||").value).rest).rest
    decreases |s|, 46
  {
    match Lit(s, "||")
    case None => Match([], s)
    case Some(r1) =>
      match ParseLogicalAndExpression(r1)
      case NoMatch => Match([], s)
      case Abort => Abort
      case Match(e, r2) =>
        match ParseLogicalOrTail(r2)
        case Match(more, r3) => Match([e] + more, r3)
        case _ => Abort
  }

  /** logical_and_expression = bitwise_or_expression >> *("&&" >> bitwise_or_expression) */
  function ParseLogicalAndExpression(s: string): (r: Parsed<LogicalAndExpression>)
    ensures Progress(s, r)
    ensures r.NoMatch? <==> ParseBitwiseOrExpression(s).NoMatch?
    ensures r.Match? ==> ParseBitwiseOrExpression(s).Match? && r.value.lhs == ParseBitwiseOrExpression(s).value
    ensures r.Match? ==>
              ParseBitwiseOrExpression(s).Match? && ParseLogicalAndTail(ParseBitwiseOrExpression(s).rest).Match?
              && r.value.operations == ParseLogicalAndTail(ParseBitwiseOrExpression(s).rest).value && r.rest == ParseLogicalAndTail(ParseBitwiseOrExpression(s).rest).rest
    decreases |s|, 45
  {
    match ParseBitwiseOrExpression(s)
    case NoMatch => NoMatch
    case Abort => Abort
    case Match(lhs, r1) =>
      match ParseLogicalAndTail(r1)
      case Match(ops, r2) => Match(LogicalAndExpression(lhs, ops), r2)
      case _ => Abort
  }

  function ParseLogicalAndTail(s: string): (r: Parsed<seq<BitwiseOrExpression>>)
    ensures ListProgress(s, r)
    ensures Lit(s, "&&").None? ==> r == Match([], s)
    ensures r.Match? && r.value != [] ==>
              Lit(s, "&&").Some? && ParseBitwiseOrExpression(Lit(s, "&&").value).Match?
              && r.value[0] == ParseBitwiseOrExpression(Lit(s, "&&").value).value
    ensures r.Match? && r.value != [] ==>
              Lit(s, "&&").Some? && ParseBitwiseOrExpression(Lit(s, "&&").value).Match? && ParseLogicalAndTail(ParseBitwiseOrExpression(Lit(s, "&&").value).rest).Match?
              && r.value[1..] == ParseLogicalAndTail(ParseBitwiseOrExpression(Lit(s, "&&").value).rest).value && r.rest == ParseLogicalAndTail(ParseBitwiseOrExpression(Lit(s, "&&").value).rest).rest
    decreases |s|, 45
  {
    match Lit(s, "&&")
    case None => Match([], s)
    case Some(r1) =>
      match ParseBitwiseOrExpression(r1)
      case NoMatch => Match([], s)
      case Abort => Abort
      case Match(e, r2) =>
        match ParseLogicalAndTail(r2)
        case Match(more, r3) => Match([e] + more, r3)
        case _ => Abort
  }

  /** bitwise_or_expression = bitwise_xor_expression >> *("|" >> bitwise_xor_expression) */
  function ParseBitwiseOrExpression(s: string): (r: Parsed<BitwiseOrExpression>)
    ensures Progress(s, r)
    ensures r.NoMatch? <==> ParseBitwiseXorExpression(s).NoMatch?
    ensures r.Match? ==> ParseBitwiseXorExpression(s).Match? && r.value.lhs == ParseBitwiseXorExpression(s).value
    ensures r.Match? ==>
              ParseBitwiseXorExpression(s).Match? && ParseBitwiseOrTail(ParseBitwiseXorExpression(s).rest).Match?
              && r.value.operations == ParseBitwiseOrTail(ParseBitwiseXorExpression(s).rest).value && r.rest == ParseBitwiseOrTail(ParseBitwiseXorExpression(s).rest).rest
    decreases |s|, 44
  {
    match ParseBitwiseXorExpression(s)
    case NoMatch => NoMatch
    case Abort => Abort
    case Match(lhs, r1) =>
      match ParseBitwiseOrTail(r1)
      case Match(ops, r2) => Match(BitwiseOrExpression(lhs, ops), r2)
      case _ => Abort
  }

  function ParseBitwiseOrTail(s: string): (r: Parsed<seq<BitwiseXorExpression>>)
    ensures ListProgress(s, r)
    ensures Lit(s, "|").None? ==> r == Match([], s)
    ensures r.Match? && r.value != [] ==>
              Lit(s, "|").Some? && ParseBitwiseXorExpression(Lit(s, "|").value).Match?
              && r.value[0] == ParseBitwiseXorExpression(Lit(s, "|").value).value
    ensures r.Match? && r.value != [] ==>
              Lit(s, "|").Some? && ParseBitwiseXorExpression(Lit(s, "|").value).Match? && ParseBitwiseOrTail(ParseBitwiseXorExpression(Lit(s, "|").value).rest).Match?
              && r.value[1..] == ParseBitwiseOrTail(ParseBitwiseXorExpression(Lit(s, "|").value).rest).value && r.rest == ParseBitwiseOrTail(ParseBitwiseXorExpression(Lit(s, "|").value).rest).rest
    decreases |s|, 44
  {
    match Lit(s, "|")
    case None => Match([], s)
    case Some(r1) =>
      match ParseBitwiseXorExpression(r1)
      case NoMatch => Match([], s)
      case Abort => Abort
      case Match(e, r2) =>
        match ParseBitwiseOrTail(r2)
        case Match(more, r3) => Match([e] + more, r3)
        case _ => Abort
  }

  /** bitwise_xor_expression = bitwise_and_expression >> *("^" >> bitwise_and_expression) */
  function ParseBitwiseXorExpression(s: string): (r: Parsed<BitwiseXorExpression>)
    ensures Progress(s, r)
    ensures r.NoMatch? <==> ParseBitwiseAndExpression(s).NoMatch?
    ensures r.Match? ==> ParseBitwiseAndExpression(s).Match? && r.value.lhs == ParseBitwiseAndExpression(s).value
    ensures r.Match? ==>
              ParseBitwiseAndExpression(s).Match? && ParseBitwiseXorTail(ParseBitwiseAndExpression(s).rest).Match?
              && r.value.operations == ParseBitwiseXorTail(ParseBitwiseAndExpression(s).rest).value && r.rest == ParseBitwiseXorTail(ParseBitwiseAndExpression(s).rest).rest
    decreases |s|, 43
  {
    match ParseBitwiseAndExpression(s)
    case NoMatch => NoMatch
    case Abort => Abort
    case Match(lhs, r1) =>
      match ParseBitwiseXorTail(r1)
      case Match(ops, r2) => Match(BitwiseXorExpression(lhs, ops), r2)
      case _ => Abort
  }

  function ParseBitwiseXorTail(s: string): (r: Parsed<seq<BitwiseAndExpression>>)
    ensures ListProgress(s, r)
    ensures Lit(s, "^").None? ==> r == Match([], s)
    ensures r.Match? && r.value != [] ==>
              Lit(s, "^").Some? && ParseBitwiseAndExpression(Lit(s, "^").value).Match?
              && r.value[0] == ParseBitwiseAndExpression(Lit(s, "^").value).value
    ensures r.Match? && r.value != [] ==>
              Lit(s, "^").Some? && ParseBitwiseAndExpression(Lit(s, "^").value).Match? && ParseBitwiseXorTail(ParseBitwiseAndExpression(Lit(s, "^").value).rest).Match?
              && r.value[1..] == ParseBitwiseXorTail(ParseBitwiseAndExpression(Lit(s, "^").value).rest).value && r.rest == ParseBitwiseXorTail(ParseBitwiseAndExpression(Lit(s, "^").value).rest).rest
    decreases |s|, 43
  {
    match Lit(s, "^")
    case None => Match([], s)
    case Some(r1) =>
      match ParseBitwiseAndExpression(r1)
      case NoMatch => Match([], s)
      case Abort => Abort
      case Match(e, r2) =>
        match ParseBitwiseXorTail(r2)
        case Match(more, r3) => Match([e] + more, r3)
        case _ => Abort
  }

  /** bitwise_and_expression = equality_expression >> *("&" >> equality_expression) */
  function ParseBitwiseAndExpression(s: string): (r: Parsed<BitwiseAndExpression>)
    ensures Progress(s, r)
    ensures r.NoMatch? <==> ParseEqualityExpression(s).NoMatch?
    ensures r.Match? ==> ParseEqualityExpression(s).Match? && r.value.lhs == ParseEqualityExpression(s).value
    ensures r.Match? ==>
              ParseEqualityExpression(s).Match? && ParseBitwiseAndTail(ParseEqualityExpression(s).rest).Match?
              && r.value.operations == ParseBitwiseAndTail(ParseEqualityExpression(s).rest).value && r.rest == ParseBitwiseAndTail(ParseEqualityExpression(s).rest).rest
    decreases |s|, 42
  {
    match ParseEqualityExpression(s)
    case NoMatch => NoMatch
    case Abort => Abort
    case Match(lhs, r1) =>
      match ParseBitwiseAndTail(r1)
      case Match(ops, r2) => Match(BitwiseAndExpression(lhs, ops), r2)
      case _ => Abort
  }

  function ParseBitwiseAndTail(s: string): (r: Parsed<seq<EqualityExpression>>)
    ensures ListProgress(s, r)
    ensures Lit(s, "&").None? ==> r == Match([], s)
    ensures r.Match? && r.value != [] ==>
              Lit(s, "&").Some? && ParseEqualityExpression(Lit(s, "&").value).Match?
              && r.value[0] == ParseEqualityExpression(Lit(s, "&").value).value
    ensures r.Match? && r.value != [] ==>
              Lit(s, "&").Some? && ParseEqualityExpression(Lit(s, "&").value).Match? && ParseBitwiseAndTail(ParseEqualityExpression(Lit(s, "&").value).rest).Match?
              && r.value[1..] == ParseBitwiseAndTail(ParseEqualityExpression(Lit(s, "&").value).rest).value && r.rest == ParseBitwiseAndTail(ParseEqualityExpression(Lit(s, "&").value).rest).rest
    decreases |s|, 42
  {
    match Lit(s, "&")
    case None => Match([], s)
    case Some(r1) =>
      match ParseEqualityExpression(r1)
      case NoMatch => Match([], s)
      case Abort => Abort
      case Match(e, r2) =>
        match ParseBitwiseAndTail(r2)
        case Match(more, r3) => Match([e] + more, r3)
        case _ => Abort
  }

  // ---------------------------------------------------------------- levels with operators

  /** equality_expression = relational_expression >> *(equality_operator > relational_expression) */
  function ParseEqualityExpression(s: string): (r: Parsed<EqualityExpression>)
    ensures Progress(s, r)
    ensures r.NoMatch? <==> ParseRelationalExpression(s).NoMatch?
    ensures r.Match? ==> ParseRelationalExpression(s).Match? && r.value.lhs == ParseRelationalExpression(s).value
    ensures r.Match? ==> forall o <- r.value.operations :: o.op in EqualityOperators
    ensures r.Match? ==> FirstOf(r.rest, EqualityOperators).None?
    ensures r.Match? ==>
              ParseRelationalExpression(s).Match? && ParseEqualityTail(ParseRelationalExpression(s).rest).Match?
              && r.value.operations == ParseEqualityTail(ParseRelationalExpression(s).rest).value && r.rest == ParseEqualityTail(ParseRelationalExpression(s).rest).rest
    decreases |s|, 41
  {
    match ParseRelationalExpression(s)
    case NoMatch => NoMatch
    case Abort => Abort
    case Match(lhs, r1) =>
      match ParseEqualityTail(r1)
      case Match(ops, r2) => Match(EqualityExpression(lhs, ops), r2)
      case _ => Abort
  }

  function ParseEqualityTail(s: string): (r: Parsed<seq<EqualityOperation>>)
    ensures ListProgress(s, r)
    ensures FirstOf(s, EqualityOperators).None? ==> r == Match([], s)
    ensures r.Match? ==> forall o <- r.value :: o.op in EqualityOperators
    ensures r.Match? && r.value != [] ==>
              FirstOf(s, EqualityOperators).Some? && ParseRelationalExpression(FirstOf(s, EqualityOperators).value.1).Match?
              && r.value[0].op == FirstOf(s, EqualityOperators).value.0
              && r.value[0].rhs == ParseRelationalExpression(FirstOf(s, EqualityOperators).value.1).value
    ensures r.Match? ==> FirstOf(r.rest, EqualityOperators).None?
    ensures r.Match? && r.value != [] ==>
              FirstOf(s, EqualityOperators).Some? && ParseRelationalExpression(FirstOf(s, EqualityOperators).value.1).Match? && ParseEqualityTail(ParseRelationalExpression(FirstOf(s, EqualityOperators).value.1).rest).Match?
              && r.value[1..] == ParseEqualityTail(ParseRelationalExpression(FirstOf(s, EqualityOperators).value.1).rest).value && r.rest == ParseEqualityTail(ParseRelationalExpression(FirstOf(s, EqualityOperators).value.1).rest).rest
    decreases |s|, 41
  {
    match FirstOf(s, EqualityOperators)
    case None => Match([], s)
    case Some((op, r1)) =>
      match ParseRelationalExpression(r1)
      case Match(rhs, r2) =>
        (match ParseEqualityTail(r2)
         case Match(more, r3) => Match([EqualityOperation(op, rhs)] + more, r3)
         case _ => Abort)
      case _ => Abort
  }

  /** relational_expression = shift_expression >> *(relational_operator > shift_expression) */
  function ParseRelationalExpression(s: string): (r: Parsed<RelationalExpression>)
    ensures Progress(s, r)
    ensures r.NoMatch? <==> ParseShiftExpression(s).NoMatch?
    ensures r.Match? ==> ParseShiftExpression(s).Match? && r.value.lhs == ParseShiftExpression(s).value
    ensures r.Match? ==> forall o <- r.value.operations :: o.op in RelationalOperators
    ensures r.Match? ==> FirstOf(r.rest, RelationalOperators).None?
    ensures r.Match? ==>
              ParseShiftExpression(s).Match? && ParseRelationalTail(ParseShiftExpression(s).rest).Match?
              && r.value.operations == ParseRelationalTail(ParseShiftExpression(s).rest).value && r.rest == ParseRelationalTail(ParseShiftExpression(s).rest).rest
    decreases |s|, 40
  {
    match ParseShiftExpression(s)
    case NoMatch => NoMatch
    case Abort => Abort
    case Match(lhs, r1) =>
      match ParseRelationalTail(r1)
      case Match(ops, r2) => Match(RelationalExpression(lhs, ops), r2)
      case _ => Abort
  }

  function ParseRelationalTail(s: string): (r: Parsed<seq<RelationalOperation>>)
    ensures ListProgress(s, r)
    ensures FirstOf(s, RelationalOperators).None? ==> r == Match([], s)
    ensures r.Match? ==> forall o <- r.value :: o.op in RelationalOperators
    ensures r.Match? && r.value != [] ==>
              FirstOf(s, RelationalOperators).Some? && ParseShiftExpression(FirstOf(s, RelationalOperators).value.1).Match?
              && r.value[0].op == FirstOf(s, RelationalOperators).value.0
              && r.value[0].rhs == ParseShiftExpression(FirstOf(s, RelationalOperators).value.1).value
    ensures r.Match? ==> FirstOf(r.rest, RelationalOperators).None?
    ensures r.Match? && r.value != [] ==>
              FirstOf(s, RelationalOperators).Some? && ParseShiftExpression(FirstOf(s, RelationalOperators).value.1).Match? && ParseRelationalTail(ParseShiftExpression(FirstOf(s, RelationalOperators).value.1).rest).Match?
              && r.value[1..] == ParseRelationalTail(ParseShiftExpression(FirstOf(s, RelationalOperators).value.1).rest).value && r.rest == ParseRelationalTail(ParseShiftExpression(FirstOf(s, RelationalOperators).value.1).rest).rest
    decreases |s|, 40
  {
    match FirstOf(s, RelationalOperators)
    case None => Match([], s)
    case Some((op, r1)) =>
      match ParseShiftExpression(r1)
      case Match(rhs, r2) =>
        (match ParseRelationalTail(r2)
         case Match(more, r3) => Match([RelationalOperation(op, rhs)] + more, r3)
         case _ => Abort)
      case _ => Abort
  }

  /** shift_expression = additive_expression >> *(shift_operator > additive_expression) */
  function ParseShiftExpression(s: string): (r: Parsed<ShiftExpression>)
    ensures Progress(s, r)
    ensures r.NoMatch? <==> ParseAdditiveExpression(s).NoMatch?
    ensures r.Match? ==> ParseAdditiveExpression(s).Match? && r.value.lhs == ParseAdditiveExpression(s).value
    ensures r.Match? ==> forall o <- r.value.operations :: o.op in ShiftOperators
    ensures r.Match? ==> FirstOf(r.rest, ShiftOperators).None?
    ensures r.Match? ==>
              ParseAdditiveExpression(s).Match? && ParseShiftTail(ParseAdditiveExpression(s).rest).Match?
              && r.value.operations == ParseShiftTail(ParseAdditiveExpression(s).rest).value && r.rest == ParseShiftTail(ParseAdditiveExpression(s).rest).rest
    decreases |s|, 39
  {
    match ParseAdditiveExpression(s)
    case NoMatch => NoMatch
    case Abort => Abort
    case Match(lhs, r1) =>
      match ParseShiftTail(r1)
      case Match(ops, r2) => Match(ShiftExpression(lhs, ops), r2)
      case _ => Abort
  }

  function ParseShiftTail(s: string): (r: Parsed<seq<ShiftOperation>>)
    ensures ListProgress(s, r)
    ensures FirstOf(s, ShiftOperators).None? ==> r == Match([], s)
    ensures r.Match? ==> forall o <- r.value :: o.op in ShiftOperators
    ensures r.Match? && r.value != [] ==>
              FirstOf(s, ShiftOperators).Some? && ParseAdditiveExpression(FirstOf(s, ShiftOperators).value.1).Match?
              && r.value[0].op == FirstOf(s, ShiftOperators).value.0
              && r.value[0].rhs == ParseAdditiveExpression(FirstOf(s, ShiftOperators).value.1).value
    ensures r.Match? ==> FirstOf(r.rest, ShiftOperators).None?
    ensures r.Match? && r.value != [] ==>
              FirstOf(s, ShiftOperators).Some? && ParseAdditiveExpression(FirstOf(s, ShiftOperators).value.1).Match? && ParseShiftTail(ParseAdditiveExpression(FirstOf(s, ShiftOperators).value.1).rest).Match?
              && r.value[1..] == ParseShiftTail(ParseAdditiveExpression(FirstOf(s, ShiftOperators).value.1).rest).value && r.rest == ParseShiftTail(ParseAdditiveExpression(FirstOf(s, ShiftOperators).value.1).rest).rest
    decreases |s|, 39
  {
    match FirstOf(s, ShiftOperators)
    case None => Match([], s)
    case Some((op, r1)) =>
      match ParseAdditiveExpression(r1)
      case Match(rhs, r2) =>
        (match ParseShiftTail(r2)
         case Match(more, r3) => Match([ShiftOperation(op, rhs)] + more, r3)
         case _ => Abort)
      case _ => Abort
  }

  /** additive_expression = multiplicative_expression >> *(additive_operator > multiplicative_expression) */
  function ParseAdditiveExpression(s: string): (r: Parsed<AdditiveExpression>)
    ensures Progress(s, r)
    ensures r.NoMatch? <==> ParseMultiplicativeExpression(s).NoMatch?
    ensures r.Match? ==> ParseMultiplicativeExpression(s).Match? && r.value.lhs == ParseMultiplicativeExpression(s).value
    ensures r.Match? ==> forall o <- r.value.operations :: o.op in AdditiveOperators
    ensures r.Match? ==> FirstOf(r.rest, AdditiveOperators).None?
    ensures r.Match? ==>
              ParseMultiplicativeExpression(s).Match? && ParseAdditiveTail(ParseMultiplicativeExpression(s).rest).Match?
              && r.value.operations == ParseAdditiveTail(ParseMultiplicativeExpression(s).rest).value && r.rest == ParseAdditiveTail(ParseMultiplicativeExpression(s).rest).rest
    decreases |s|, 38
  {
    match ParseMultiplicativeExpression(s)
    case NoMatch => NoMatch
    case Abort => Abort
    case Match(lhs, r1) =>
      match ParseAdditiveTail(r1)
      case Match(ops, r2) => Match(AdditiveExpression(lhs, ops), r2)
      case _ => Abort
  }

  function ParseAdditiveTail(s: string): (r: Parsed<seq<AdditiveOperation>>)
    ensures ListProgress(s, r)
    ensures FirstOf(s, AdditiveOperators).None? ==> r == Match([], s)
    ensures r.Match? ==> forall o <- r.value :: o.op in AdditiveOperators
    ensures r.Match? && r.value != [] ==>
              FirstOf(s, AdditiveOperators).Some? && ParseMultiplicativeExpression(FirstOf(s, AdditiveOperators).value.1).Match?
              && r.value[0].op == FirstOf(s, AdditiveOperators).value.0
              && r.value[0].rhs == ParseMultiplicativeExpression(FirstOf(s, AdditiveOperators).value.1).value
    ensures r.Match? ==> FirstOf(r.rest, AdditiveOperators).None?
    ensures r.Match? && r.value != [] ==>
              FirstOf(s, AdditiveOperators).Some? && ParseMultiplicativeExpression(FirstOf(s, AdditiveOperators).value.1).Match? && ParseAdditiveTail(ParseMultiplicativeExpression(FirstOf(s, AdditiveOperators).value.1).rest).Match?
              && r.value[1..] == ParseAdditiveTail(ParseMultiplicativeExpression(FirstOf(s, AdditiveOperators).value.1).rest).value && r.rest == ParseAdditiveTail(ParseMultiplicativeExpression(FirstOf(s, AdditiveOperators).value.1).rest).rest
    decreases |s|, 38
  {
    match FirstOf(s, AdditiveOperators)
    case None => Match([], s)
    case Some((op, r1)) =>
      match ParseMultiplicativeExpression(r1)
      case Match(rhs, r2) =>
        (match ParseAdditiveTail(r2)
         case Match(more, r3) => Match([AdditiveOperation(op, rhs)] + more, r3)
         case _ => Abort)
      case _ => Abort
  }

  /** multiplicative_expression = unary_expression >> *(multiplicative_operator > unary_expression) */
  function ParseMultiplicativeExpression(s: string): (r: Parsed<MultiplicativeExpression>)
    ensures Progress(s, r)
    ensures r.NoMatch? <==> ParseUnaryExpression(s).NoMatch?
    ensures r.Match? ==> ParseUnaryExpression(s).Match? && r.value.lhs == ParseUnaryExpression(s).value
    ensures r.Match? ==> forall o <- r.value.operations :: o.op in MultiplicativeOperators
    ensures r.Match? ==> FirstOf(r.rest, MultiplicativeOperators).None?
    ensures r.Match? ==>
              ParseUnaryExpression(s).Match? && ParseMultiplicativeTail(ParseUnaryExpression(s).rest).Match?
              && r.value.operations == ParseMultiplicativeTail(ParseUnaryExpression(s).rest).value && r.rest == ParseMultiplicativeTail(ParseUnaryExpression(s).rest).rest
    decreases |s|, 37
  {
    match ParseUnaryExpression(s)
    case NoMatch => NoMatch
    case Abort => Abort
    case Match(lhs, r1) =>
      match ParseMultiplicativeTail(r1)
      case Match(ops, r2) => Match(MultiplicativeExpression(lhs, ops), r2)
      case _ => Abort
  }

  function ParseMultiplicativeTail(s: string): (r: Parsed<seq<MultiplicativeOperation>>)
    ensures ListProgress(s, r)
    ensures FirstOf(s, MultiplicativeOperators).None? ==> r == Match([], s)
    ensures r.Match? ==> forall o <- r.value :: o.op in MultiplicativeOperators
    ensures r.Match? && r.value != [] ==>
              FirstOf(s, MultiplicativeOperators).Some? && ParseUnaryExpression(FirstOf(s, MultiplicativeOperators).value.1).Match?
              && r.value[0].op == FirstOf(s, MultiplicativeOperators).value.0
              && r.value[0].rhs == ParseUnaryExpression(FirstOf(s, MultiplicativeOperators).value.1).value
    ensures r.Match? ==> FirstOf(r.rest, MultiplicativeOperators).None?
    ensures r.Match? && r.value != [] ==>
              FirstOf(s, MultiplicativeOperators).Some? && ParseUnaryExpression(FirstOf(s, MultiplicativeOperators).value.1).Match? && ParseMultiplicativeTail(ParseUnaryExpression(FirstOf(s, MultiplicativeOperators).value.1).rest).Match?
              && r.value[1..] == ParseMultiplicativeTail(ParseUnaryExpression(FirstOf(s, MultiplicativeOperators).value.1).rest).value && r.rest == ParseMultiplicativeTail(ParseUnaryExpression(FirstOf(s, MultiplicativeOperators).value.1).rest).rest
    decreases |s|, 37
  {
    match FirstOf(s, MultiplicativeOperators)
    case None => Match([], s)
    case Some((op, r1)) =>
      match ParseUnaryExpression(r1)
      case Match(rhs, r2) =>
        (match ParseMultiplicativeTail(r2)
         case Match(more, r3) => Match([MultiplicativeOperation(op, rhs)] + more, r3)
         case _ => Abort)
      case _ => Abort
  }

  /** unary_expression = *unary_operator >> postfix_expression */
  function ParseUnaryExpression(s: string): (r: Parsed<UnaryExpression>)
    ensures Progress(s, r)
    ensures r.NoMatch? <==> ParsePostfixExpression(UnaryOperatorList(s).1).NoMatch?
    ensures r.Match? ==>
              r.value.operators == UnaryOperatorList(s).0
              && ParsePostfixExpression(UnaryOperatorList(s).1).Match?
              && r.value.rhs == ParsePostfixExpression(UnaryOperatorList(s).1).value
    decreases |s|, 36
  {
    var (ops, r1) := UnaryOperatorList(s);
    match ParsePostfixExpression(r1)
    case NoMatch => NoMatch
    case Abort => Abort
    case Match(p, r2) => Match(UnaryExpression(ops, p), r2)
  }

  /** postfix_expression = lhs_expression >> -(!eol >> postfix_operator) */
  function ParsePostfixExpression(s: string): (r: Parsed<PostfixExpression>)
    ensures Progress(s, r)
    ensures r.NoMatch? <==> ParseLhsExpression(s).NoMatch?
    ensures r.Match? ==> ParseLhsExpression(s).Match? && r.value.lhs == ParseLhsExpression(s).value
    ensures r.Match? && r.value.op.Some? ==>
              r.value.op.value in PostfixOperators && NotEol(ParseLhsExpression(s).rest)
    ensures r.Match? && r.value.op.None? ==> PostfixOperator(r.rest).None?
    ensures r.Match? && r.value.op.Some? ==>
              ParseLhsExpression(s).Match? && PostfixOperator(ParseLhsExpression(s).rest).Some?
              && r.value.op.value == PostfixOperator(ParseLhsExpression(s).rest).value.0
    decreases |s|, 35
  {
    match ParseLhsExpression(s)
    case NoMatch => NoMatch
    case Abort => Abort
    case Match(lhs, r1) =>
      match PostfixOperator(r1)
      case None => Match(PostfixExpression(lhs, None), r1)
      case Some((op, r2)) => Match(PostfixExpression(lhs, Some(op)), r2)
  }

  // ---------------------------------------------------------------- left-hand sides

  /** lhs_expression = call_expression | new_expression */
  function ParseLhsExpression(s: string): (r: Parsed<LhsExpression>)
    ensures Progress(s, r)
    ensures r.NoMatch? <==> ParseCallExpression(s).NoMatch? && ParseNewExpression(s).NoMatch?
    ensures r.Match? && r.value.Call? ==> ParseCallExpression(s).Match? && r.value.call == ParseCallExpression(s).value
    ensures r.Match? && r.value.New? ==>
              ParseCallExpression(s).NoMatch? && ParseNewExpression(s).Match?
              && r.value.newExpression == ParseNewExpression(s).value
    decreases |s|, 34
  {
    match ParseCallExpression(s)
    case Match(c, r1) => Match(Call(c), r1)
    case Abort => Abort
    case NoMatch =>
      match ParseNewExpression(s)
      case Match(n, r1) => Match(New(n), r1)
      case Abort => Abort
      case NoMatch => NoMatch
  }

  /** call_expression = member_expression >> arguments >> *(arguments | '[' >> expression >> ']' | '.' >> identifier_name) */
  function ParseCallExpression(s: string): (r: Parsed<CallExpression>)
    ensures Progress(s, r)
    ensures ParseMemberExpression(s).NoMatch? ==> r.NoMatch?
    ensures r.Match? ==>
              ParseMemberExpression(s).Match? && r.value.target == ParseMemberExpression(s).value
              && ParseArguments(ParseMemberExpression(s).rest).Match?
              && r.value.arguments == ParseArguments(ParseMemberExpression(s).rest).value
    ensures r.Match? ==>
              ParseMemberExpression(s).Match? && ParseArguments(ParseMemberExpression(s).rest).Match?
              && ParseCallModifiers(ParseArguments(ParseMemberExpression(s).rest).rest).Match?
              && r.value.modifiers == ParseCallModifiers(ParseArguments(ParseMemberExpression(s).rest).rest).value
    decreases |s|, 33
  {
    match ParseMemberExpression(s)
    case NoMatch => NoMatch
    case Abort => Abort
    case Match(target, r1) =>
      match ParseArguments(r1)
      case NoMatch => NoMatch
      case Abort => Abort
      case Match(args, r2) =>
        match ParseCallModifiers(r2)
        case Match(modifiers, r3) => Match(CallExpression(target, args, modifiers), r3)
        case _ => Abort
  }

  /** `*(arguments | '[' >> expression >> ']' | '.' >> identifier_name)` */
  function ParseCallModifiers(s: string): (r: Parsed<seq<CallModifier>>)
    ensures ListProgress(s, r)
    ensures r.Match? ==> ParseArguments(r.rest).NoMatch? && ParseIndexOrProperty(r.rest).NoMatch?
    ensures ParseArguments(s).NoMatch? && ParseIndexOrProperty(s).NoMatch? ==> r == Match([], s)
    ensures r.Match? && ParseArguments(s).Match? ==>
              r.value != [] && r.value[0] == CallArguments(ParseArguments(s).value)
              && ParseCallModifiers(ParseArguments(s).rest).Match?
              && r.value[1..] == ParseCallModifiers(ParseArguments(s).rest).value
    ensures r.Match? && r.value != [] && ParseArguments(s).NoMatch? ==>
              ParseIndexOrProperty(s).Match?
              && r.value[0] == (match ParseIndexOrProperty(s).value
                                case IndexModifier(e) => CallIndex(e)
                                case PropertyModifier(name) => CallProperty(name))
              && ParseCallModifiers(ParseIndexOrProperty(s).rest).Match?
              && r.value[1..] == ParseCallModifiers(ParseIndexOrProperty(s).rest).value
    decreases |s|, 33
  {
    match ParseArguments(s)
    case Abort => Abort
    case Match(args, r1) =>
      (match ParseCallModifiers(r1)
       case Match(more, r2) => Match([CallArguments(args)] + more, r2)
       case _ => Abort)
    case NoMatch =>
      match ParseIndexOrProperty(s)
      case Abort => Abort
      case NoMatch => Match([], s)
      case Match(m, r1) =>
        match ParseCallModifiers(r1)
        case Match(more, r2) =>
          var modifier := match m
            case IndexModifier(e) => CallIndex(e)
            case PropertyModifier(name) => CallProperty(name);
          Match([modifier] + more, r2)
        case _ => Abort
  }

  /** `'[' >> expression >> ']' | '.' >> identifier_name` */
  function ParseIndexOrProperty(s: string): (r: Parsed<MemberModifier>)
    ensures Progress(s, r)
    ensures Lit(s, "[").None? ==> r == ParseProperty(s)
    ensures r.Match? && r.value.PropertyModifier? ==> IsIdentifierName(r.value.property)
    ensures r.Match? && r.value.IndexModifier? ==>
              Lit(s, "[").Some? && ParseExpression(Lit(s, "[").value).Match?
              && r.value.index == ParseExpression(Lit(s, "[").value).value
    ensures Lit(s, "[").Some? && !ParseExpression(Lit(s, "[").value).Abort?
            && (ParseExpression(Lit(s, "[").value).Match? ==> Lit(ParseExpression(Lit(s, "[").value).rest, "]").None?) ==>
              r == ParseProperty(s)
    decreases |s|, 28
  {
    match Lit(s, "[")
    case Some(r1) =>
      (match ParseExpression(r1)
       case Abort => Abort
       case NoMatch => ParseProperty(s)
       case Match(e, r2) =>
         match Lit(r2, "]")
         case None => ParseProperty(s)
         case Some(r3) => Match(IndexModifier(e), r3))
    case None => ParseProperty(s)
  }

  /** `'.' >> identifier_name` */
  function ParseProperty(s: string): (r: Parsed<MemberModifier>)
    ensures Progress(s, r)
    ensures r.NoMatch? <==> Lit(s, ".").None? || IdentifierName(Lit(s, ".").value).None?
    ensures r.Match? ==> r.value.PropertyModifier? && r.value.property == IdentifierName(Lit(s, ".").value).value.0
  {
    match Lit(s, ".")
    case None => NoMatch
    case Some(r1) =>
      match IdentifierName(r1)
      case None => NoMatch
      case Some((name, r2)) => Match(PropertyModifier(name), r2)
  }

  /** arguments = '(' >> -(assignment_expression % ',') >> ')' */
  function ParseArguments(s: string): (r: Parsed<seq<AssignmentExpression>>)
    ensures Progress(s, r)
    ensures Lit(s, "(").None? ==> r.NoMatch?
    ensures r.Match? && r.value == [] ==> Lit(s, "(").Some? && ParseAssignmentExpression(Lit(s, "(").value).NoMatch?
    ensures r.Match? && r.value != [] ==>
              Lit(s, "(").Some? && ParseAssignmentExpression(Lit(s, "(").value).Match?
              && r.value[0] == ParseAssignmentExpression(Lit(s, "(").value).value
    ensures r.Match? && r.value != [] ==>
              Lit(s, "(").Some? && ParseAssignmentExpression(Lit(s, "(").value).Match?
              && ParseExpressionTail(ParseAssignmentExpression(Lit(s, "(").value).rest).Match?
              && r.value[1..] == ParseExpressionTail(ParseAssignmentExpression(Lit(s, "(").value).rest).value
    decreases |s|, 28
  {
    match Lit(s, "(")
    case None => NoMatch
    case Some(r1) =>
      match ParseAssignmentExpression(r1)
      case Abort => Abort
      case NoMatch =>
        (match Lit(r1, ")")
         case None => NoMatch
         case Some(r2) => Match([], r2))
      case Match(a, r2) =>
        match ParseExpressionTail(r2)
        case Match(more, r3) =>
          (match Lit(r3, ")")
           case None => NoMatch
           case Some(r4) => Match([a] + more, r4))
        case _ => Abort
  }

  /** new_expression = *string("new") >> member_expression */
  function ParseNewExpression(s: string): (r: Parsed<NewExpression>)
    ensures Progress(s, r)
    ensures r.NoMatch? <==> ParseMemberExpression(NewOperatorList(s).1).NoMatch?
    ensures r.Match? ==>
              r.value.operators == NewOperatorList(s).0
              && ParseMemberExpression(NewOperatorList(s).1).Match?
              && r.value.member == ParseMemberExpression(NewOperatorList(s).1).value
    decreases |s|, 33
  {
    var (ops, r1) := NewOperatorList(s);
    match ParseMemberExpression(r1)
    case NoMatch => NoMatch
    case Abort => Abort
    case Match(m, r2) => Match(NewExpression(ops, m), r2)
  }

  /** member_expression = member_access | lit("new") > instantiation */
  function ParseMemberExpression(s: string): (r: Parsed<MemberExpression>)
    ensures Progress(s, r)
    ensures r.NoMatch? <==> ParseMemberAccess(s).NoMatch? && Lit(s, "new").None?
    ensures r.Match? && r.value.MemberAccess? ==> r == ParseMemberAccess(s)
    ensures r.Match? && r.value.Instantiation? ==>
              ParseMemberAccess(s).NoMatch? && Lit(s, "new").Some? && r == ParseInstantiation(Lit(s, "new").value)
    decreases |s|, 31
  {
    match ParseMemberAccess(s)
    case Match(m, r1) => Match(m, r1)
    case Abort => Abort
    case NoMatch =>
      match Lit(s, "new")
      case None => NoMatch
      case Some(r1) =>
        match ParseInstantiation(r1)
        case Match(m, r2) => Match(m, r2)
        case _ => Abort
  }

  /** instantiation = member_expression >> arguments */
  function ParseInstantiation(s: string): (r: Parsed<MemberExpression>)
    ensures Progress(s, r)
    ensures r.Match? ==> r.value.Instantiation?
    ensures r.Match? ==>
              ParseMemberExpression(s).Match? && r.value.target == ParseMemberExpression(s).value
              && ParseArguments(ParseMemberExpression(s).rest).Match?
              && r.value.arguments == ParseArguments(ParseMemberExpression(s).rest).value
    decreases |s|, 32
  {
    match ParseMemberExpression(s)
    case NoMatch => NoMatch
    case Abort => Abort
    case Match(m, r1) =>
      match ParseArguments(r1)
      case NoMatch => NoMatch
      case Abort => Abort
      case Match(args, r2) => Match(Instantiation(m, args), r2)
  }

  /** member_access = (primary_expression | function_expression) >> *('[' >> expression >> ']' | '.' >> identifier_name) */
  function ParseMemberAccess(s: string): (r: Parsed<MemberExpression>)
    ensures Progress(s, r)
    ensures r.Match? ==> r.value.MemberAccess?
    ensures r.NoMatch? <==> ParsePrimaryExpression(s).NoMatch? && ParseFunctionExpression(s).NoMatch?
    ensures r.Match? && r.value.member.PrimaryMember? ==>
              ParsePrimaryExpression(s).Match? && r.value.member.primary == ParsePrimaryExpression(s).value
    ensures r.Match? && r.value.member.FunctionMember? ==>
              ParsePrimaryExpression(s).NoMatch? && ParseFunctionExpression(s).Match?
              && r.value.member.function_ == ParseFunctionExpression(s).value
    ensures r.Match? ==>
              (var afterMember := if ParsePrimaryExpression(s).Match? then ParsePrimaryExpression(s).rest
                                  else if ParseFunctionExpression(s).Match? then ParseFunctionExpression(s).rest
                                  else s;
               ParseMemberModifiers(afterMember).Match? && r.value.modifiers == ParseMemberModifiers(afterMember).value)
    decreases |s|, 30
  {
    var head := match ParsePrimaryExpression(s)
      case Match(p, r1) => Match(PrimaryMember(p), r1)
      case Abort => Abort
      case NoMatch =>
        match ParseFunctionExpression(s)
        case Match(f, r1) => Match(FunctionMember(f), r1)
        case Abort => Abort
        case NoMatch => NoMatch;
    match head
    case NoMatch => NoMatch
    case Abort => Abort
    case Match(member, r1) =>
      match ParseMemberModifiers(r1)
      case Match(modifiers, r2) => Match(MemberAccess(member, modifiers), r2)
      case _ => Abort
  }

  /** `*('[' >> expression >> ']' | '.' >> identifier_name)` */
  function ParseMemberModifiers(s: string): (r: Parsed<seq<MemberModifier>>)
    ensures ListProgress(s, r)
    ensures r.Match? ==> ParseIndexOrProperty(r.rest).NoMatch?
    ensures ParseIndexOrProperty(s).NoMatch? ==> r == Match([], s)
    ensures r.Match? && r.value != [] ==>
              ParseIndexOrProperty(s).Match? && r.value[0] == ParseIndexOrProperty(s).value
              && ParseMemberModifiers(ParseIndexOrProperty(s).rest).Match?
              && r.value[1..] == ParseMemberModifiers(ParseIndexOrProperty(s).rest).value
              && r.rest == ParseMemberModifiers(ParseIndexOrProperty(s).rest).rest
    decreases |s|, 30
  {
    match ParseIndexOrProperty(s)
    case NoMatch => Match([], s)
    case Abort => Abort
    case Match(m, r1) =>
      match ParseMemberModifiers(r1)
      case Match(more, r2) => Match([m] + more, r2)
      case _ => Abort
  }

  /** function_expression = "function" > -identifier > function tail */
  function ParseFunctionExpression(s: string): (r: Parsed<FunctionExpression>)
    ensures Progress(s, r)
    ensures r.NoMatch? <==> Lit(s, "function").None?
    ensures r.Match? ==> (r.value.name.Some? <==> IdentifierToken(Lit(s, "function").value).Some?)
    ensures r.Match? && r.value.name.Some? ==> r.value.name.value == IdentifierToken(Lit(s, "function").value).value.0
    ensures r.Match? ==> forall p <- r.value.parameters :: IsIdentifierName(p)
    ensures r.Match? ==>
              Lit(s, "function").Some?
              && (var afterKeyword := Lit(s, "function").value;
                  var afterName := if IdentifierToken(afterKeyword).Some? then IdentifierToken(afterKeyword).value.1 else afterKeyword;
                  ParseFunctionTail(afterName).Match? && ParseFunctionTail(afterName).value == (r.value.parameters, r.value.body))
    decreases |s|, 29
  {
    match Lit(s, "function")
    case None => NoMatch
    case Some(r1) =>
      var (name, r2) := match IdentifierToken(r1)
        case None => (None, r1)
        case Some((n, r)) => (Some(n), r);
      match ParseFunctionTail(r2)
      case Match((parameters, body), r3) => Match(FunctionExpression(name, parameters, body), r3)
      case _ => Abort
  }

  /** primary_expression = this_reference | identifier | literal | array_literal | '(' >> expression >> ')' */
  function ParsePrimaryExpression(s: string): (r: Parsed<PrimaryExpression>)
    ensures Lit(s, "this").Some? ==> r == Match(This, Lit(s, "this").value)
    ensures r.Match? && r.value.Identifier? ==>
              IsIdentifierName(r.value.name) && Lit(s, "this").None?
    ensures Progress(s, r)
    ensures Lit(s, "this").None? && IdentifierToken(s).Some? ==>
              r == Match(Identifier(IdentifierToken(s).value.0), IdentifierToken(s).value.1)
    ensures Lit(s, "this").None? && IdentifierToken(s).None? ==> r == ParseOtherPrimary(s)
    decreases |s|, 29
  {
    if Lit(s, "this").Some? then Match(This, Lit(s, "this").value)
    else match IdentifierToken(s)
    case Some((name, r1)) => Match(Identifier(name), r1)
    case None => ParseOtherPrimary(s)
  }

  /** `literal | array_literal | '(' >> expression >> ')'`, the alternatives after identifier. */
  function ParseOtherPrimary(s: string): (r: Parsed<PrimaryExpression>)
    ensures Progress(s, r)
    ensures r.Match? ==> r.value.LiteralValue? || r.value.Grouped?
    ensures LiteralToken(s).Some? ==> r == Match(LiteralValue(LiteralToken(s).value.0), LiteralToken(s).value.1)
    ensures LiteralToken(s).None? && ParseArrayLiteral(s).Match? ==>
              r == Match(Grouped(ParseArrayLiteral(s).value), ParseArrayLiteral(s).rest)
    ensures LiteralToken(s).None? && ParseArrayLiteral(s).NoMatch? ==>
              (r.NoMatch? <==> ParseCondition(s).NoMatch?) && (r.Match? ==> ParseCondition(s).Match? && r.value == Grouped(ParseCondition(s).value))
    decreases |s|, 28
  {
    match LiteralToken(s)
    case Some((l, r1)) => Match(LiteralValue(l), r1)
    case None =>
      match ParseArrayLiteral(s)
      case Match(items, r1) => Match(Grouped(items), r1)
      case Abort => Abort
      case NoMatch =>
        match ParseCondition(s)
        case Match(e, r1) => Match(Grouped(e), r1)
        case Abort => Abort
        case NoMatch => NoMatch
  }

  /** `*lit(',')`: drops any number of commas. */
  function SkipCommas(s: string): (r: string)
    ensures |r| <= |s|
    ensures Lit(r, ",").None?
    ensures Lit(s, ",").None? ==> r == s
    decreases |s|
  {
    match Lit(s, ",")
    case None => s
    case Some(r1) => SkipCommas(r1)
  }

  /** array_literal = '[' >> *lit(',') >> assignment_expression >> *(+lit(',') >> assignment_expression) >> *lit(',') >> ']' */
  function ParseArrayLiteral(s: string): (r: Parsed<Expression>)
    ensures Progress(s, r)
    ensures Lit(s, "[").None? ==> r.NoMatch?
    ensures r.Match? ==>
              Lit(s, "[").Some? && ParseAssignmentExpression(SkipCommas(Lit(s, "[").value)).Match?
              && r.value.head == ParseAssignmentExpression(SkipCommas(Lit(s, "[").value)).value
    ensures r.Match? ==>
              Lit(s, "[").Some? && ParseAssignmentExpression(SkipCommas(Lit(s, "[").value)).Match?
              && ParseArrayTail(ParseAssignmentExpression(SkipCommas(Lit(s, "[").value)).rest).Match?
              && r.value.tail == ParseArrayTail(ParseAssignmentExpression(SkipCommas(Lit(s, "[").value)).rest).value
    decreases |s|, 27
  {
    match Lit(s, "[")
    case None => NoMatch
    case Some(r1) =>
      match ParseAssignmentExpression(SkipCommas(r1))
      case NoMatch => NoMatch
      case Abort => Abort
      case Match(a, r2) =>
        match ParseArrayTail(r2)
        case Match(more, r3) =>
          (match Lit(SkipCommas(r3), "]")
           case None => NoMatch
           case Some(r4) => Match(Expression(a, more), r4))
        case _ => Abort
  }

  /** `*(+lit(',') >> assignment_expression)` */
  function ParseArrayTail(s: string): (r: Parsed<seq<AssignmentExpression>>)
    ensures ListProgress(s, r)
    ensures Lit(s, ",").None? ==> r == Match([], s)
    ensures r.Match? && r.value != [] ==>
              Lit(s, ",").Some? && ParseAssignmentExpression(SkipCommas(Lit(s, ",").value)).Match?
              && r.value[0] == ParseAssignmentExpression(SkipCommas(Lit(s, ",").value)).value
    ensures r.Match? && r.value != [] ==>
              Lit(s, ",").Some? && ParseAssignmentExpression(SkipCommas(Lit(s, ",").value)).Match? && ParseArrayTail(ParseAssignmentExpression(SkipCommas(Lit(s, ",").value)).rest).Match?
              && r.value[1..] == ParseArrayTail(ParseAssignmentExpression(SkipCommas(Lit(s, ",").value)).rest).value && r.rest == ParseArrayTail(ParseAssignmentExpression(SkipCommas(Lit(s, ",").value)).rest).rest
    decreases |s|, 28
  {
    match Lit(s, ",")
    case None => Match([], s)
    case Some(r1) =>
      match ParseAssignmentExpression(SkipCommas(r1))
      case NoMatch => Match([], s)
      case Abort => Abort
      case Match(a, r2) =>
        match ParseArrayTail(r2)
        case Match(more, r3) => Match([a] + more, r3)
        case _ => Abort
  }
}
