/**
 * The parse entry point of kunjs (src/kunjs/parser.cc): run the grammar
 * over the whole input with the white-space skipper, then accept only
 * when the grammar matched and the input iterator reached the end.  The
 * skipper also runs after the match, so trailing white space is consumed.
 */
module Parser {
  import opened Wrappers
  import opened Ast
  import opened Lexical
  import opened Grammar

  /**
   * `Parser::parse`: `begin` is the position the grammar stopped at after
   * the skipper's post-skip; `ast` is the program the grammar built.
   */
  method Parse(code: string) returns (accepted: bool, ast: Program)
    ensures accepted <==> ParseSourceElements(code).Match? && Blank(ParseSourceElements(code).rest)
    ensures ParseSourceElements(code).Match? ==> ast == ParseSourceElements(code).value
    ensures Blank(code) ==> accepted && ast == []
  {
    var matched := false;
    var begin := 0;
    ast := [];
    match ParseSourceElements(code) {
      case Match(program, rest) =>
        matched := true;
        ast := program;
        begin := |code| - |SkipSpace(rest)|;
      case _ =>
    }
    accepted := matched && begin == |code|;
  }

  /** The grammar never fails to match a program outright: it matches or aborts. */
  lemma ProgramNeverNoMatch(code: string)
    ensures ParseSourceElements(code).Match? || ParseSourceElements(code).Abort?
    ensures ParseSourceElements(code).Match? ==> |ParseSourceElements(code).rest| <= |code|
  {
  }

  /** Empty input and a lone line break are accepted as the empty program. */
  lemma EmptyProgramsAccepted()
    ensures ParseSourceElements("") == Match([], "")
    ensures ParseSourceElements("\n") == Match([], "\n") && Blank("\n")
  {
    assert Blank("\n") by { assert SkipSpace("\n") == SkipSpace("\n"[1..]); }
  }

  /** A token that differs from "try" in its first two characters is not read from it. */
  lemma NoTokenBesideTry(s: string, token: string)
    requires WordAt(SkipSpace(s), "try")
    requires |token| >= 2 && (token[0] != 't' || token[1] != 'r')
    ensures Lit(s, token).None?
  {
    var t := SkipSpace(s);
    assert t[0] == 't' && t[1] == 'r';
  }

  /** "try" is a reserved word and no literal. */
  lemma TryIsNoIdentifierOrLiteral(s: string)
    requires WordAt(SkipSpace(s), "try")
    ensures IdentifierToken(s).None? && LiteralToken(s).None?
  {
    var t := SkipSpace(s);
    assert t[0] == 't' && t[1] == 'r' && t[2] == 'y';
    assert Keywords[20] == "try";
    assert ReservedWord(s);
    assert !("null" <= t) && !("true" <= t) && !("false" <= t);
    assert DigitRun(t) == 0;
    assert NumericLiteralToken(s).None?;
  }

  /** Input that starts with "try" is no left-hand-side expression. */
  lemma TryStartsNoLhsExpression(s: string)
    requires WordAt(SkipSpace(s), "try")
    ensures ParseLhsExpression(s).NoMatch?
  {
    var t := SkipSpace(s);
    assert t[0] == 't' && t[1] == 'r';
    TryIsNoIdentifierOrLiteral(s);
    NoTokenBesideTry(s, "this");
    NoTokenBesideTry(s, "function");
    NoTokenBesideTry(s, "new");
    assert Lit(s, "[").None? && Lit(s, "(").None?;
    assert ParseArrayLiteral(s).NoMatch? && ParseCondition(s).NoMatch?;
    assert ParseOtherPrimary(s).NoMatch?;
    assert ParsePrimaryExpression(s).NoMatch?;
    assert ParseMemberAccess(s).NoMatch?;
    assert ParseMemberExpression(s).NoMatch?;
    assert NewOperatorList(s) == ([], s);
  }

  /**
   * Input that starts with the keyword "try" is no expression: a reserved
   * word is no identifier, and no literal, bracket, parenthesis, "this",
   * "function", "new" or unary operator starts it.
   */
  lemma TryStartsNoExpression(s: string)
    requires WordAt(SkipSpace(s), "try")
    ensures ParseExpression(s).NoMatch?
  {
    var t := SkipSpace(s);
    assert t[0] == 't' && t[1] == 'r';
    TryStartsNoLhsExpression(s);
    assert FirstOf(s, UnaryOperators).None? by {
      forall i | 0 <= i < |UnaryOperators|
        ensures !(UnaryOperators[i] <= t)
      {
      }
    }
    assert UnaryOperatorList(s) == ([], s);
    assert ParsePostfixExpression(s).NoMatch?;
    assert ParseUnaryExpression(s).NoMatch?;
    assert ParseMultiplicativeExpression(s).NoMatch?;
    assert ParseAdditiveExpression(s).NoMatch?;
    assert ParseShiftExpression(s).NoMatch?;
    assert ParseRelationalExpression(s).NoMatch?;
    assert ParseEqualityExpression(s).NoMatch?;
    assert ParseBitwiseAndExpression(s).NoMatch?;
    assert ParseBitwiseXorExpression(s).NoMatch?;
    assert ParseBitwiseOrExpression(s).NoMatch?;
    assert ParseLogicalAndExpression(s).NoMatch?;
    assert ParseLogicalOrExpression(s).NoMatch?;
    assert ParseConditionalExpression(s).NoMatch?;
    assert ParseAssignmentTargets(s) == Match([], s);
  }

  /** A statement that starts with "try" can only be a try statement. */
  lemma TryStartsOnlyTryStatement(s: string)
    requires WordAt(SkipSpace(s), "try")
    ensures ParseStatement(s) == ParseTryStatement(s)
    ensures ParseSourceElement(s).NoMatch? <==> ParseTryStatement(s).NoMatch?
  {
    var t := SkipSpace(s);
    assert t[0] == 't' && t[1] == 'r';
    TryStartsNoExpression(s);
    TryIsNoIdentifierOrLiteral(s);
    NoTokenBesideTry(s, "var");
    NoTokenBesideTry(s, "if");
    NoTokenBesideTry(s, "do");
    NoTokenBesideTry(s, "while");
    NoTokenBesideTry(s, "for");
    NoTokenBesideTry(s, "continue");
    NoTokenBesideTry(s, "break");
    NoTokenBesideTry(s, "return");
    NoTokenBesideTry(s, "with");
    NoTokenBesideTry(s, "switch");
    NoTokenBesideTry(s, "throw");
    NoTokenBesideTry(s, "debugger");
    NoTokenBesideTry(s, "function");
    assert Lit(s, ";").None? && Lit(s, "{").None?;
  }

  /**
   * `try { ... }` with neither a catch nor a finally block is rejected:
   * the try rule needs one of them, and no other rule reads the keyword.
   */
  lemma BareTryRejected(s: string, body: string)
    requires WordAt(SkipSpace(s), "try")
    requires Lit(s, "try").Some? && Lit(Lit(s, "try").value, "{") == Some(body)
    requires ParseStatements(body).Match? && Lit(ParseStatements(body).rest, "}").Some?
    requires Blank(Lit(ParseStatements(body).rest, "}").value)
    ensures !(ParseSourceElements(s).Match? && Blank(ParseSourceElements(s).rest))
  {
    assert ParseCatchOrFinally(Lit(ParseStatements(body).rest, "}").value).NoMatch?;
    assert ParseTryStatement(s).NoMatch?;
    TryStartsOnlyTryStatement(s);
    assert ParseSourceElements(s) == Match([], s);
  }

  /**
   * The three parts of a switch body: the case clauses before a default
   * clause, the default clause when the next word is "default", and the
   * case clauses after it.  Without a default clause nothing follows the
   * first case clauses.
   */
  lemma SwitchBodySplit(s: string, afterBrace: string)
    requires ParseSwitchStatement(s).Match?
    requires ParseExpectedCondition(Lit(s, "switch").value).Match?
    requires Lit(ParseExpectedCondition(Lit(s, "switch").value).rest, "{") == Some(afterBrace)
    ensures ParseCaseClauses(afterBrace).Match?
    ensures ParseSwitchStatement(s).value.switch.clauses == ParseCaseClauses(afterBrace).value
    ensures Lit(ParseCaseClauses(afterBrace).rest, "case").None?
    ensures ParseSwitchStatement(s).value.switch.defaultClause.Some? <==>
              Lit(ParseCaseClauses(afterBrace).rest, "default").Some?
    ensures ParseSwitchStatement(s).value.switch.defaultClause.None? ==>
              ParseSwitchStatement(s).value.switch.otherClauses == []
    ensures ParseSwitchStatement(s).value.switch.defaultClause.Some? ==>
              ParseDefaultClause(ParseCaseClauses(afterBrace).rest).Match?
              && ParseCaseClauses(ParseDefaultClause(ParseCaseClauses(afterBrace).rest).rest).Match?
              && ParseSwitchStatement(s).value.switch.otherClauses
                 == ParseCaseClauses(ParseDefaultClause(ParseCaseClauses(afterBrace).rest).rest).value
  {
    var rest := ParseCaseClauses(afterBrace).rest;
    assert ParseCaseClause(rest).NoMatch?;
    assert ParseCaseClauses(rest) == Match([], rest);
  }
}
