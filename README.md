# kunjs front end in Dafny

This project models the front end of kunjs, a small JavaScript compiler
written in C++ on Boost Spirit and LLVM. It covers five parts:

- **AST** (`ast.dfy`, module `Ast`). The syntax tree of `src/kunjs/ast.h`.
  Boost variants become datatypes, optionals become `Option`, and vectors
  become sequences. The two vectors that the grammar always fills with at
  least one element, the expression list and the var declaration list, are
  a head plus a tail.
- **Grammar** (`lexical.dfy`, module `Lexical`, and `grammar.dfy`, module
  `Grammar`). The Spirit rules of `src/kunjs/grammar.cc`, as a recursive
  descent over strings:
  - one function per rule;
  - each result is `Match(value, rest)`, `NoMatch` (a soft failure that
    lets `|` try the next alternative) or `Abort` (a failed `>`
    expectation);
  - the white-space skipper runs before every token;
  - `Lexical` holds the token-level rules: literals, identifiers,
    reserved words, operator alternatives and numeric and string literals.
- **Parse entry point** (`parser.dfy`, module `Parser`). `Parser::parse` as
  a method. It accepts when the grammar matched and the iterator, after the
  skipper's post-skip, reached the end of the input.
- **Compiler** (`ir.dfy`, `expression_compiler.dfy`,
  `statement_compiler.dfy`, `program_compiler.dfy`, `compiler_examples.dfy`).
  The visitors that lower the AST to LLVM values. `IR` is a symbolic value
  language: constants, integer and floating-point instructions, and an
  SIToFP conversion. `EvalInt` gives the 64-bit meaning of an integer
  value, with two's-complement wrap-around and truncating `sdiv`/`srem`.
  - The additive and multiplicative visitors are methods with loops. They
    are proved equal to left folds, and those folds are described by
    lemmas: numeric promotion to double, integer sums, products, quotients
    and remainders.
  - `ProgramCompiler` is a class. Its `result` field is updated by each
    visit, and `std::for_each` walks a copy of the visitor.
  - `CompilerExamples` replays the integer and floating-point cases of
    `test/compiler_test.cc` on the model.
- **Printer** (`printer_lines.dfy`, module `PrinterLines`, and
  `printer.dfy`, module `Printer`). The AST printer of
  `src/kunjs/printer.cc`.
  - `PrinterLines` gives, for each handler, the lines it writes. Each
    function proves that all of its lines are indented at least as deep as
    the node. Lemmas state which sections appear at a node's own
    indentation and which appear one step deeper, so optional parts appear
    exactly when present.
  - `Printer` holds the handlers as methods. They append to a `Console`,
    the standard output as a sequence of lines. Each method is proved to
    append exactly the lines that `PrinterLines` gives. `Indent` is the
    counting loop of the source.

Modules import each other. Every `.dfy` file is verified together.

## Model

| member | source | states |
|---|---|---|
| CompilerExamples.IntOperandLowers | src/kunjs/compiler/expression_compiler.cc:291-314 | an integer literal operand evaluates to its own 64-bit value, as a unary expression and as a term |
| CompilerExamples.ParenthesisedLowers | src/kunjs/compiler/expression_compiler.cc:282-285 | a parenthesised additive expression compiles to that additive expression |
| CompilerExamples.AdditiveIntegerStep | src/kunjs/compiler/expression_compiler.cc:117-132 | one more "+" or "-" on integers adds or subtracts the operand's value when no wrap-around happens |
| CompilerExamples.MultiplicativeIntegerStep | src/kunjs/compiler/expression_compiler.cc:164-180 | one more "*", "/" or "%" on integers multiplies, divides (truncating) or takes the remainder (with the sign of the dividend) by the operand's value, when the product fits and the divisor is neither 0 nor -1 under the most negative value |
| CompilerExamples.SimpleIntArithmetic | test/compiler_test.cc:126-134 | "1+2;" evaluates to the integer 3 |
| CompilerExamples.ComplexIntArithmetic | test/compiler_test.cc:136-144 | "1+2-3+7-12;" evaluates to the integer -5 |
| CompilerExamples.IntMultiplication | test/compiler_test.cc:166-174 | "5*9;" evaluates to the integer 45 |
| CompilerExamples.ComplexIntMultiplication | test/compiler_test.cc:176-184 | "1/2+2*(3+7) - 12;" evaluates to the integer 8 |
| CompilerExamples.ComplexFloatArithmetic | test/compiler_test.cc:156-164 | "4.123 -20 + 62.145 - 108.2;" is a double and not an integer |
| CompilerExamples.ComplexFloatMultiplication | test/compiler_test.cc:196-204 | "10 % 3 + 7 * 3 / 4.0;" is a double |
| CompilerExamples.ShiftLeftKeepsLeftOperand | src/kunjs/compiler/expression_compiler.cc:82-95 | "55 << 4;" evaluates to 55, not the 880 the test expects, because shift operations are not compiled |
| CompilerExamples.IdentifierOperandIsIllTyped | src/kunjs/compiler/expression_compiler.cc:97-132 | "x + 1" with an identifier operand builds an integer add of an i8* pointer and an i64, which is not well typed |
| ExpressionCompiler.Arithmetic | src/kunjs/compiler/expression_compiler.cc:97-162 | numeric promotion: when either operand is a double both are converted and the floating-point instruction is built, with type double; otherwise the integer instruction on the untouched operands, with the left operand's type |
| ExpressionCompiler.AdditiveStep | src/kunjs/compiler/expression_compiler.cc:117-132 | an operator other than "+" and "-" leaves the accumulated value unchanged |
| ExpressionCompiler.MultiplicativeStep | src/kunjs/compiler/expression_compiler.cc:164-180 | an operator other than "*", "/" and "%" leaves the accumulated value unchanged |
| ExpressionCompiler.LowerLiteral | src/kunjs/compiler/expression_compiler.cc:291-314 | null is the i8* null pointer; true and false are i1 constants 1 and 0; an integer is an i64 constant of its value; a double is a floating-point constant of its spelling; a string is an MDString of its text |
| ExpressionCompiler.CompileAdditive | src/kunjs/compiler/expression_compiler.cc:117-132 | the loop over the additive operations returns the left fold of AdditiveStep over them, which the promotion and sum lemmas describe |
| ExpressionCompiler.CompileMultiplicative | src/kunjs/compiler/expression_compiler.cc:164-180 | the loop over the multiplicative operations returns the left fold of MultiplicativeStep over them, which the promotion, product and division lemmas describe |
| ExpressionCompiler.AdditivePromotion | src/kunjs/compiler/expression_compiler.cc:97-132 | after any number of additive operations the result is a double exactly when the first operand or the operand of some "+" or "-" is one, and otherwise keeps the first operand's type |
| ExpressionCompiler.MultiplicativePromotion | src/kunjs/compiler/expression_compiler.cc:134-180 | after any number of multiplicative operations the result is a double exactly when the first operand or the operand of some "*", "/" or "%" is one, and otherwise keeps the first operand's type |
| ExpressionCompiler.IntegerSum | src/kunjs/compiler/expression_compiler.cc:97-115 | integer add and sub evaluate to the 64-bit wrapped sum and difference of their operands |
| ExpressionCompiler.IntegerProduct | src/kunjs/compiler/expression_compiler.cc:134-142 | integer mul evaluates to the 64-bit wrapped product of its operands |
| ExpressionCompiler.IntegerDivision | src/kunjs/compiler/expression_compiler.cc:144-162 | integer sdiv and srem are undefined for a zero divisor and for the most negative 64-bit value over -1, and otherwise evaluate to the truncating quotient and remainder |
| ExpressionCompiler.IntegerAdditiveChain | src/kunjs/compiler/expression_compiler.cc:117-132 | with no double anywhere in the first n operations, the compiled additive chain evaluates to the left fold of wrapped 64-bit sums and differences of its operands' values, undefined once any operand is |
| ExpressionCompiler.IntegerMultiplicativeChain | src/kunjs/compiler/expression_compiler.cc:164-180 | with no double anywhere in the first n operations, the compiled multiplicative chain evaluates to the left fold of wrapped products, truncating quotients and remainders, undefined once an operand is undefined, a divisor is 0, or the most negative value is divided by -1 |
| ExpressionCompiler.ArithmeticWellTyped | src/kunjs/compiler/expression_compiler.cc:97-162 | the instruction built for two well-typed operands is well typed exactly when, with promotion, both operand types are numbers, and, without promotion, both operands have the same integer type; so a pointer or string operand gives an instruction LLVM rejects |
| ExpressionCompiler.CreateAdd | src/kunjs/compiler/expression_compiler.cc:97-105 | an operand that is a double promotes both: fadd "add_double" of the two converted operands; otherwise add "add_int" of the operands as they are |
| ExpressionCompiler.CreateSub | src/kunjs/compiler/expression_compiler.cc:107-115 | fsub "sub_double" of the converted operands when either is a double, otherwise sub "sub_int" of the operands |
| ExpressionCompiler.CreateMul | src/kunjs/compiler/expression_compiler.cc:134-142 | fmul "mul_double" of the converted operands when either is a double, otherwise mul "mul_int" of the operands |
| ExpressionCompiler.CreateDiv | src/kunjs/compiler/expression_compiler.cc:144-152 | fdiv "div_double" of the converted operands when either is a double, otherwise sdiv "div_int" of the operands |
| ExpressionCompiler.CreateRem | src/kunjs/compiler/expression_compiler.cc:154-162 | frem "rem_double" of the converted operands when either is a double, otherwise srem "rem_int" of the operands |
| ExpressionCompiler.LowerAssignment | src/kunjs/compiler/expression_compiler.cc:22-30 | an assignment expression has the value of the additive expression reached through the first operand of every level below it; its targets are not compiled |
| ExpressionCompiler.LowerConditional | src/kunjs/compiler/expression_compiler.cc:32-41 | a conditional expression has the value of the additive expression under its condition; the clauses are not compiled |
| ExpressionCompiler.LowerLogicalOr | src/kunjs/compiler/expression_compiler.cc:43-46 | the value of the additive expression under the first operand; the other operands are dropped |
| ExpressionCompiler.LowerLogicalAnd | src/kunjs/compiler/expression_compiler.cc:48-51 | the value of the additive expression under the first operand; the other operands are dropped |
| ExpressionCompiler.LowerBitwiseOr | src/kunjs/compiler/expression_compiler.cc:53-56 | the value of the additive expression under the first operand; the other operands are dropped |
| ExpressionCompiler.LowerBitwiseXor | src/kunjs/compiler/expression_compiler.cc:58-61 | the value of the additive expression under the first operand; the other operands are dropped |
| ExpressionCompiler.LowerBitwiseAnd | src/kunjs/compiler/expression_compiler.cc:63-66 | the value of the additive expression under the first operand; the other operands are dropped |
| ExpressionCompiler.LowerEquality | src/kunjs/compiler/expression_compiler.cc:68-75 | the value of the additive expression under the first operand; the equality operations are not compiled |
| ExpressionCompiler.LowerRelational | src/kunjs/compiler/expression_compiler.cc:77-85 | the value of the additive expression under the first operand; the relational operations are not compiled |
| ExpressionCompiler.LowerShift | src/kunjs/compiler/expression_compiler.cc:87-95 | the value of its first additive operand; the shift operations are not compiled |
| ExpressionCompiler.LowerAdditive | src/kunjs/compiler/expression_compiler.cc:117-132 | an additive expression with no operations has the value of its first term |
| ExpressionCompiler.LowerMultiplicative | src/kunjs/compiler/expression_compiler.cc:164-180 | a multiplicative expression with no operations has the value of its first factor |
| ExpressionCompiler.LowerUnary | src/kunjs/compiler/expression_compiler.cc:182-190 | the prefix operators are ignored: a call gives the i8* null and a new expression the value of its member expression |
| ExpressionCompiler.LowerPostfix | src/kunjs/compiler/expression_compiler.cc:192-198 | the postfix operator is ignored: a call gives the i8* null and a new expression the value of its member expression |
| ExpressionCompiler.LowerLhs | src/kunjs/compiler/expression_compiler.cc:200-217 | a call gives the i8* null; a new expression drops its "new" operators and gives the value of its member expression |
| ExpressionCompiler.LowerMember | src/kunjs/compiler/expression_compiler.cc:219-229 | an instantiation or a function member gives the i8* null; a member access to a primary expression gives that primary's value, its modifiers ignored |
| ExpressionCompiler.LowerMemberOptions | src/kunjs/compiler/expression_compiler.cc:231-233 | a function expression gives the i8* null and a primary expression its own value |
| ExpressionCompiler.LowerMemberModifier | src/kunjs/compiler/expression_compiler.cc:235-238 | an index or property modifier gives an i8* pointer with no integer value |
| ExpressionCompiler.LowerPrimary | src/kunjs/compiler/expression_compiler.cc:253-285 | `this` and identifiers give the i8* null, a literal its literal value, and a parenthesised expression the value of its last item |
| ExpressionCompiler.LowerItems | src/kunjs/compiler/expression_compiler.cc:282-285 | an expression list has the value of its last assignment expression |
| ExpressionCompiler.PlaceholdersAreNull | src/kunjs/compiler/expression_compiler.cc:204-275 | calls, instantiations, function expressions, member modifiers, `this` and identifiers all compile to the same i8* null as the null literal |
| ExpressionCompiler.ForwardingLevels | src/kunjs/compiler/expression_compiler.cc:209-233 | `new` operators and member modifiers are dropped, and a parenthesised expression has the value of its last item |
| ExpressionCompiler.UnaryLowersThroughPrimary | src/kunjs/compiler/expression_compiler.cc:182-256 | a unary expression over a plain member access compiles to its primary expression; unary and postfix operators are ignored |
| Grammar.ParseSourceElements | src/kunjs/grammar.cc:61 | program = *source_element: the first element is the one source_element reads and the rest of the list is *source_element read after it; the repetition stops only where source_element fails softly, and it gives the empty list when the first one does; it never fails softly, never grows the input, and gives the empty list on blank input |
| Grammar.ParseSourceElement | src/kunjs/grammar.cc:62 | function_declaration | statement: it fails softly exactly when both do; a FunctionElement holds the declaration read, a StatementElement the statement read where no declaration matched; a match consumes input and blank input never matches |
| Grammar.ParseFunctionDeclaration | src/kunjs/grammar.cc:64 | function_declaration: it fails softly exactly when "function" does not start the input, aborts when no identifier follows the keyword, names the declaration by that identifier, and its parameters and body are the ones the function tail reads after the name; every parameter is an identifier name; a match consumes input and blank input never matches |
| Grammar.ParseFunctionTail | src/kunjs/grammar.cc:64-65 | the `"(" > -formal_parameter_list > ")" > "{" > function_body > "}"` expectation chain: it never fails softly, aborts without "(", its parameters are the parameter list read after "(", followed by ")" and "{", and its body is the source elements read after those; every parameter is an identifier name, and a match consumes input |
| Grammar.ParameterList | src/kunjs/grammar.cc:66 | the optional formal parameter list: empty when no identifier starts the input, otherwise the identifier read followed by the `"," identifier` repetition after it; every parameter an identifier name; the rest is never longer than the input |
| Grammar.ParameterTail | src/kunjs/grammar.cc:66 | the `"," identifier` repetition: empty when no "," starts the input, otherwise the identifier after "," followed by the repetition read after it; every parameter an identifier name; the rest is never longer than the input |
| Grammar.ParseStatements | src/kunjs/grammar.cc:89 | *statement: the first element is the statement read and the rest of the list is *statement read after it; the repetition stops only where statement fails softly, and it gives the empty list when the first one does; it never fails softly, never grows the input, and gives the empty list on blank input |
| Grammar.ParseStatement | src/kunjs/grammar.cc:69-89 | the twenty statement alternatives in order: where the group of the first three (expression, var, empty) does not fail softly its result is taken, an if or loop statement is the result of the group of alternatives four to ten, and any later kind the result of the group of the last ten; a match consumes input and blank input never matches |
| Grammar.ParseSimpleStatement | src/kunjs/grammar.cc:70-72 | alternatives one to three of statement: a match is an expression, var or empty statement; an expression statement wins when it does not fail softly, and a var or empty statement is exactly the result of its rule; a match consumes input and blank input never matches |
| Grammar.ParseIfOrLoopStatement | src/kunjs/grammar.cc:73-79 | alternatives four to ten of statement: a match is an if statement or one of the six loops, and a statement of each of those kinds is exactly the result of that kind's rule; a match consumes input and blank input never matches |
| Grammar.ParseLaterStatement | src/kunjs/grammar.cc:80-89 | alternatives eleven to twenty of statement: a match is a continue, break, return, with, labelled, switch, throw, try, debugger or block statement, and a statement of each of those kinds is exactly the result of that kind's rule; a match consumes input and blank input never matches |
| Grammar.ParseExpressionStatement | src/kunjs/grammar.cc:70 | `!lit("function") >> expression >> ";"`: an ExpressionStatement of the expression read, followed by ";"; it fails softly when no expression starts the input or the input starts with "function"; a match consumes input and blank input never matches |
| Grammar.ParseVariableStatement | src/kunjs/grammar.cc:91 | variable_statement: fails softly without "var"; a match is a VarStatement of the declarations read after the keyword; a match consumes input and blank input never matches |
| Grammar.ParseVarDeclarations | src/kunjs/grammar.cc:91 | variable_declaration % ",": fails softly exactly when the first declaration does; its head is that declaration and its tail the `"," variable_declaration` repetition read after it; a match consumes input and blank input never matches |
| Grammar.ParseVarDeclarationTail | src/kunjs/grammar.cc:91 | the `"," variable_declaration` repetition: empty without ",", and its first element is the declaration after the comma, and the rest is the same repetition read after that element; it never fails softly, never grows the input, and gives the empty list on blank input |
| Grammar.ParseVariableDeclaration | src/kunjs/grammar.cc:92 | variable_declaration: fails softly exactly when no identifier starts the input; the name is that identifier; an initializer is present only when "=" follows, and is then the assignment expression read after "="; without one, either no "=" follows or no assignment expression follows it, and the rest is what follows the name; a match consumes input and blank input never matches |
| Grammar.ParseEmptyStatement | src/kunjs/grammar.cc:94 | empty_statement: matches exactly when ";" starts the input, giving the empty statement and the rest after ";"; a match consumes input and blank input never matches |
| Grammar.ParseIfStatement | src/kunjs/grammar.cc:96 | if_statement: fails softly without "if"; a match is an IfStatement of the condition read after the keyword and the statement read after the condition; an else branch is the statement read after "else" following that statement; without one the rest is what follows the first statement, and no "else" followed by a statement comes next; a match consumes input and blank input never matches |
| Grammar.ParseCondition | src/kunjs/grammar.cc:96 | `"(" >> expression >> ")"` for if and while: fails softly without "("; a match is the expression read after "(", and ")" comes right after it; a match consumes input and blank input never matches |
| Grammar.ParseDoWhileStatement | src/kunjs/grammar.cc:98 | do_while_statement: fails softly without "do"; a match is a DoWhileStatement whose body is the statement read after the keyword and whose condition is the condition read after "while" following that body; a match consumes input and blank input never matches |
| Grammar.ParseWhileStatement | src/kunjs/grammar.cc:99 | while_statement: fails softly without "while"; a match is a WhileStatement of the condition read after the keyword and the statement read after that condition; a match consumes input and blank input never matches |
| Grammar.ParseOptionalExpression | src/kunjs/grammar.cc:100 | -expression: never fails softly and never grows the input; None when no expression starts the input (in particular on blank input), otherwise the expression read |
| Grammar.ParseForTail | src/kunjs/grammar.cc:100-101 | the shared tail of the counted for loops: its condition is the optional expression read first, its action the optional expression read after ";", and its body the statement read after ")" with the rest after that statement; a match consumes input |
| Grammar.ParseForStatement | src/kunjs/grammar.cc:100 | for_statement: fails softly without "for"; a match is a ForStatement whose initialization is the optional expression read after "for" and "(", and whose condition, action and body are the for tail read after the ";" that follows it; a match consumes input and blank input never matches |
| Grammar.ParseForWithVarStatement | src/kunjs/grammar.cc:101 | for_with_var_statement: fails softly without "for"; a match is a ForWithVarStatement whose declarations are the ones read after "for", "(" and "var", and whose condition, action and body are the for tail read after the ";" that follows them; a match consumes input and blank input never matches |
| Grammar.ParseForeachTail | src/kunjs/grammar.cc:102-103 | the `"in" > expression > ")" > statement` tail of the for-in loops: fails softly without "in", its list is the expression read after "in" and its body the statement read after the ")" that follows; a match consumes input |
| Grammar.ParseForeachStatement | src/kunjs/grammar.cc:102 | foreach_statement: fails softly without "for"; a match is a ForeachStatement whose item is the left-hand side read after "for" and "(", and whose list and body are the for-in tail read after that item; a match consumes input and blank input never matches |
| Grammar.ParseForeachWithVarStatement | src/kunjs/grammar.cc:103 | foreach_with_var_statement: fails softly without "for"; a match is a ForeachWithVarStatement whose item is the declaration read after "for", "(" and "var", and whose list and body are the for-in tail read after that declaration; a match consumes input and blank input never matches |
| Grammar.ParseJumpLabel | src/kunjs/grammar.cc:105-106 | the `!eol > -identifier > ";"` tail: it never fails softly, aborts when a line terminator follows, and the label is present exactly when an identifier follows, and is that identifier |
| Grammar.ParseContinueStatement | src/kunjs/grammar.cc:105 | continue_statement: fails softly exactly without "continue", aborts when a line terminator follows the keyword, and a match is a Continue with the label read after it; a match consumes input and blank input never matches |
| Grammar.ParseBreakStatement | src/kunjs/grammar.cc:106 | break_statement: fails softly exactly without "break", aborts when a line terminator follows the keyword, and a match is a Break with the label read after it; a match consumes input and blank input never matches |
| Grammar.ParseReturnStatement | src/kunjs/grammar.cc:107 | return_statement: fails softly exactly without "return", aborts when a line terminator follows the keyword, and a match is a Return of the optional expression read after it; a match consumes input and blank input never matches |
| Grammar.ParseWithStatement | src/kunjs/grammar.cc:109 | with_statement: fails softly exactly without "with"; a match is a WithStatement whose context is the condition read after the keyword and whose body is the statement read after that condition; a match consumes input and blank input never matches |
| Grammar.ParseExpectedCondition | src/kunjs/grammar.cc:109 | the `"(" > expression > ")"` expectation chain: it never fails softly, aborts without "(", its value is the expression read after "(", and a match consumes input |
| Grammar.ParseLabelledStatement | src/kunjs/grammar.cc:117 | labelled_statement: fails softly when no identifier starts the input, and does not fail softly once an identifier and ":" are read; a match is a Labelled statement named by that identifier whose statement is the one read after ":"; a match consumes input and blank input never matches |
| Grammar.ParseSwitchStatement | src/kunjs/grammar.cc:112-113 | switch_statement: fails softly exactly without "switch"; a match is a SwitchStatement of the condition read after the keyword, whose first clauses are the case clauses read after the "{" that follows, and whose default and later clauses are the switch end read after those; a match consumes input and blank input never matches |
| Grammar.ParseSwitchTail | src/kunjs/grammar.cc:113 | the `-default_clause > *case_clause > "}"` end of a switch: it never fails softly; it holds a default clause exactly when "default" starts the input, with the statements that clause read, and its cases are the case clauses read after that default clause, or at the start without one; a match consumes input |
| Grammar.ParseCaseClauses | src/kunjs/grammar.cc:113 | *case_clause: the first clause is the one case_clause reads and the rest is *case_clause read after it; the repetition stops only where case_clause fails softly, and it is empty when the first one does; it never fails softly, never grows the input, and gives the empty list on blank input |
| Grammar.ParseCaseClause | src/kunjs/grammar.cc:114 | case_clause: fails softly exactly without "case"; its match clause is the expression read after the keyword, and its statements are the ones read after the ":" that follows; a match consumes input and blank input never matches |
| Grammar.ParseDefaultClause | src/kunjs/grammar.cc:115 | default_clause: fails softly exactly without "default", and aborts when ":" does not follow the keyword; its statements are the ones read after the ":"; a match consumes input and blank input never matches |
| Grammar.ParseThrowStatement | src/kunjs/grammar.cc:119 | throw_statement: fails softly exactly without "throw", aborts when a line terminator follows the keyword, and a match is a Throw of the expression read after it; a match consumes input and blank input never matches |
| Grammar.ParseTryStatement | src/kunjs/grammar.cc:121 | try_statement: fails softly without "try"; a match is a TryStatement of the statements read after "try" and "{", whose catch and finally blocks are the ones `catch_block || finally_block` reads after the closing "}", at least one of them present; a match consumes input and blank input never matches |
| Grammar.ParseCatchOrFinally | src/kunjs/grammar.cc:121 | catch_block || finally_block: fails softly exactly when both do; a match holds a catch block or a finally block; it holds a catch block exactly when one was read, and then that one; it holds a finally block exactly when one is read after the catch block (or at the start without one), and then that one; a match consumes input and blank input never matches |
| Grammar.ParseExpectedBlock | src/kunjs/grammar.cc:122-123 | the `"{" >> *statement > "}"` block after an expectation: it never fails softly, aborts without "{", its statements are those read after "{", and "}" follows them; a match consumes input |
| Grammar.ParseCatchBlock | src/kunjs/grammar.cc:122 | catch_block: fails softly exactly without "catch"; the exception name is the identifier read after "catch" and "(", and its statements are the block read after the ")" that follows; a match consumes input and blank input never matches |
| Grammar.ParseFinallyBlock | src/kunjs/grammar.cc:123 | finally_block: fails softly exactly without "finally"; its statements are the block read after the keyword; a match consumes input and blank input never matches |
| Grammar.ParseDebuggerStatement | src/kunjs/grammar.cc:88 | the debugger statement: fails softly exactly without "debugger", aborts when ";" does not follow, and a match is the Debugger statement followed by ";"; a match consumes input and blank input never matches |
| Grammar.ParseBlock | src/kunjs/grammar.cc:89 | the block statement: fails softly exactly without "{"; a match is a Block of the statements read after "{", and "}" follows them; a match consumes input and blank input never matches |
| Grammar.ParseExpression | src/kunjs/grammar.cc:125 | expression = assignment_expression % ",": fails softly exactly when the first assignment expression does; its head is that assignment expression and its tail the `"," assignment_expression` repetition read after it; a match consumes input and blank input never matches |
| Grammar.ParseExpressionTail | src/kunjs/grammar.cc:125 | the `"," assignment_expression` repetition: empty without ",", and its first element is the assignment expression after the comma, and the rest is the same repetition read after that element; it never fails softly, never grows the input, and gives the empty list on blank input |
| Grammar.ParseAssignmentExpression | src/kunjs/grammar.cc:127 | assignment_expression: its targets are the ones read first and its right-hand side the conditional expression read after them; after the targets it fails softly exactly when that conditional expression does; a match consumes input and blank input never matches |
| Grammar.ParseAssignmentTargets | src/kunjs/grammar.cc:127 | the `lhs_expression assignment_operator` repetition: empty when no left-hand side starts the input; its first target is the left-hand side read with the assignment operator after it, and the rest is the repetition read after that operator; it never fails softly, never grows the input, and gives the empty list on blank input |
| Grammar.ParseConditionalExpression | src/kunjs/grammar.cc:143-144 | conditional_expression: fails softly exactly when the logical-or expression does, and its condition is that expression; its clauses, when present, are the conditional clauses read after it, which start with "?"; without clauses no "?" is left; a match consumes input and blank input never matches |
| Grammar.ParseConditionalClauses | src/kunjs/grammar.cc:142 | `"?" > assignment_expression > ":" > assignment_expression`: fails softly exactly without "?"; its true clause is the assignment expression read after "?", and its false clause the one read after the ":" that follows, with the rest after it; a match consumes input and blank input never matches |
| Grammar.ParseLogicalOrExpression | src/kunjs/grammar.cc:146 | the logical-or level: fails softly exactly when the logical-and expression does, and its first operand is that expression and its operations the tail read after it; a match consumes input and blank input never matches |
| Grammar.ParseLogicalOrTail | src/kunjs/grammar.cc:146 | the `"||" operand` repetition: empty without "||", and its first operand is the logical-and expression after "||", and the rest is the same repetition read after that element; it never fails softly, never grows the input, and gives the empty list on blank input |
| Grammar.ParseLogicalAndExpression | src/kunjs/grammar.cc:148 | the logical-and level: fails softly exactly when the bitwise-or expression does, and its first operand is that expression and its operations the tail read after it; a match consumes input and blank input never matches |
| Grammar.ParseLogicalAndTail | src/kunjs/grammar.cc:148 | the `"&&" operand` repetition: empty without "&&", and its first operand is the bitwise-or expression after "&&", and the rest is the same repetition read after that element; it never fails softly, never grows the input, and gives the empty list on blank input |
| Grammar.ParseBitwiseOrExpression | src/kunjs/grammar.cc:150 | the bitwise-or level: fails softly exactly when the bitwise-xor expression does, and its first operand is that expression and its operations the tail read after it; a match consumes input and blank input never matches |
| Grammar.ParseBitwiseOrTail | src/kunjs/grammar.cc:150 | the `"|" operand` repetition: empty without "|", and its first operand is the bitwise-xor expression after "|", and the rest is the same repetition read after that element; it never fails softly, never grows the input, and gives the empty list on blank input |
| Grammar.ParseBitwiseXorExpression | src/kunjs/grammar.cc:152 | the bitwise-xor level: fails softly exactly when the bitwise-and expression does, and its first operand is that expression and its operations the tail read after it; a match consumes input and blank input never matches |
| Grammar.ParseBitwiseXorTail | src/kunjs/grammar.cc:152 | the `"^" operand` repetition: empty without "^", and its first operand is the bitwise-and expression after "^", and the rest is the same repetition read after that element; it never fails softly, never grows the input, and gives the empty list on blank input |
| Grammar.ParseBitwiseAndExpression | src/kunjs/grammar.cc:154 | the bitwise-and level: fails softly exactly when the equality expression does, and its first operand is that expression and its operations the tail read after it; a match consumes input and blank input never matches |
| Grammar.ParseBitwiseAndTail | src/kunjs/grammar.cc:154 | the `"&" operand` repetition: empty without "&", and its first operand is the equality expression after "&", and the rest is the same repetition read after that element; it never fails softly, never grows the input, and gives the empty list on blank input |
| Grammar.ParseEqualityExpression | src/kunjs/grammar.cc:156-161 | the equality level: fails softly exactly when the relational expression does, its first operand is that expression and its operations the tail read after it, every operator is an equality operator, and none follows a match; a match consumes input and blank input never matches |
| Grammar.ParseEqualityTail | src/kunjs/grammar.cc:156-161 | the equality operations: empty when no equality operator starts the input; the first operation has the operator the ordered alternative picks and the relational expression after it, every operator is an equality operator, and none follows a match, and the rest is the same repetition read after that element; it never fails softly, never grows the input, and gives the empty list on blank input |
| Grammar.ParseRelationalExpression | src/kunjs/grammar.cc:163-170 | the relational level: fails softly exactly when the shift expression does, its first operand is that expression and its operations the tail read after it, every operator is a relational operator, and none follows a match; a match consumes input and blank input never matches |
| Grammar.ParseRelationalTail | src/kunjs/grammar.cc:163-170 | the relational operations: empty when no relational operator starts the input; the first operation has the operator the ordered alternative picks and the shift expression after it, every operator is a relational operator, and none follows a match, and the rest is the same repetition read after that element; it never fails softly, never grows the input, and gives the empty list on blank input |
| Grammar.ParseShiftExpression | src/kunjs/grammar.cc:172-176 | the shift level: fails softly exactly when the additive expression does, its first operand is that expression and its operations the tail read after it, every operator is a shift operator, and none follows a match; a match consumes input and blank input never matches |
| Grammar.ParseShiftTail | src/kunjs/grammar.cc:172-176 | the shift operations: empty when no shift operator starts the input; the first operation has the operator the ordered alternative picks and the additive expression after it, every operator is a shift operator, and none follows a match, and the rest is the same repetition read after that element; it never fails softly, never grows the input, and gives the empty list on blank input |
| Grammar.ParseAdditiveExpression | src/kunjs/grammar.cc:178-179 | the additive level: fails softly exactly when the multiplicative expression does, its first operand is that expression and its operations the tail read after it, every operator is an additive operator, and none follows a match; a match consumes input and blank input never matches |
| Grammar.ParseAdditiveTail | src/kunjs/grammar.cc:178-179 | the additive operations: empty when no additive operator starts the input; the first operation has the operator the ordered alternative picks and the multiplicative expression after it, every operator is an additive operator, and none follows a match, and the rest is the same repetition read after that element; it never fails softly, never grows the input, and gives the empty list on blank input |
| Grammar.ParseMultiplicativeExpression | src/kunjs/grammar.cc:181-185 | the multiplicative level: fails softly exactly when the unary expression does, its first operand is that expression and its operations the tail read after it, every operator is a multiplicative operator, and none follows a match; a match consumes input and blank input never matches |
| Grammar.ParseMultiplicativeTail | src/kunjs/grammar.cc:181-185 | the multiplicative operations: empty when no multiplicative operator starts the input; the first operation has the operator the ordered alternative picks and the unary expression after it, every operator is a multiplicative operator, and none follows a match, and the rest is the same repetition read after that element; it never fails softly, never grows the input, and gives the empty list on blank input |
| Grammar.ParseUnaryExpression | src/kunjs/grammar.cc:187 | unary_expression: its operators are the prefix operators read first, its operand the postfix expression after them, and it fails softly exactly when that postfix expression does; a match consumes input and blank input never matches |
| Grammar.ParsePostfixExpression | src/kunjs/grammar.cc:198 | postfix_expression: fails softly exactly when the left-hand side does, its operand is that left-hand side, its operator is the postfix operator read after it, which only follows on the same line, and without one none follows; a match consumes input and blank input never matches |
| Grammar.ParseLhsExpression | src/kunjs/grammar.cc:201 | call_expression | new_expression: fails softly exactly when both do; a Call holds the call read, a New the new expression read where no call matched; a match consumes input and blank input never matches |
| Grammar.ParseCallExpression | src/kunjs/grammar.cc:203-204 | call_expression: fails softly when no member expression starts the input; its target is that member expression, its arguments the ones read right after it, and its modifiers the call suffixes read after those arguments; a match consumes input and blank input never matches |
| Grammar.ParseCallModifiers | src/kunjs/grammar.cc:204 | the repetition of arguments, index and property suffixes of a call: it is empty where neither an argument list nor an index or property suffix follows, and stops only there; an argument list read first gives a CallArguments element followed by the repetition after it; otherwise an index or property suffix gives a CallIndex or CallProperty of it followed by the repetition after it; it never fails softly, never grows the input, and gives the empty list on blank input |
| Grammar.ParseIndexOrProperty | src/kunjs/grammar.cc:204 | an index or property suffix: without "[", or when "[" is not followed by an expression and "]", it is the property suffix; an index is the expression read after "[", a property an identifier name; a match consumes input and blank input never matches |
| Grammar.ParseProperty | src/kunjs/grammar.cc:204 | a `"." identifier_name` suffix: fails softly exactly when "." or the name after it is missing, and the property is that name; a match consumes input and blank input never matches |
| Grammar.ParseArguments | src/kunjs/grammar.cc:206 | arguments: fails softly without "("; the list is empty only when no assignment expression follows "(", and otherwise is the one read there followed by the `"," assignment_expression` repetition after it; a match consumes input and blank input never matches |
| Grammar.ParseNewExpression | src/kunjs/grammar.cc:208 | new_expression: its operators are the "new" words read first, its member expression the one after them, and it fails softly exactly when that member expression does; a match consumes input and blank input never matches |
| Grammar.ParseMemberExpression | src/kunjs/grammar.cc:214-216 | member_expression: fails softly exactly when no member access matches and "new" does not start the input; a MemberAccess is the member access read, an Instantiation the one read after "new" where no member access matched; a match consumes input and blank input never matches |
| Grammar.ParseInstantiation | src/kunjs/grammar.cc:213 | instantiation: a match is an Instantiation whose target is the member expression read and whose arguments are the ones right after it; a match consumes input and blank input never matches |
| Grammar.ParseMemberAccess | src/kunjs/grammar.cc:210-211 | member_access: fails softly exactly when neither a primary expression nor a function expression starts the input; the member is the primary expression read, or the function expression where no primary matched, and its modifiers are the index and property suffixes read after that member; a match consumes input and blank input never matches |
| Grammar.ParseMemberModifiers | src/kunjs/grammar.cc:211 | the index and property suffixes of a member access: empty when no index or property suffix starts the input, otherwise the suffix read followed by the repetition after it; it stops only where no such suffix follows; it never fails softly, never grows the input, and gives the empty list on blank input |
| Grammar.ParseFunctionExpression | src/kunjs/grammar.cc:65 | function_expression: fails softly exactly without "function"; it is named exactly when an identifier follows the keyword, by that identifier, and its parameters and body are the ones the function tail reads after the name (or after the keyword when unnamed); every parameter is an identifier name; a match consumes input and blank input never matches |
| Grammar.ParsePrimaryExpression | src/kunjs/grammar.cc:218-224 | primary_expression in order: "this" gives This, else an identifier gives that Identifier, else the other alternatives decide; a match consumes input and blank input never matches |
| Grammar.ParseOtherPrimary | src/kunjs/grammar.cc:221-224 | literal | array_literal | "(" expression ")": a literal token gives that LiteralValue, else an array literal gives it Grouped, else the parenthesised expression Grouped, failing softly exactly when that does; a match consumes input and blank input never matches |
| Grammar.SkipCommas | src/kunjs/grammar.cc:226-227 | *lit(","): no comma is left, the input is unchanged when no comma starts it, and the rest is never longer than the input |
| Grammar.ParseArrayLiteral | src/kunjs/grammar.cc:226-227 | array_literal: fails softly without "["; its first element is the assignment expression read after "[" and any commas, and its other elements the `+lit(",") assignment_expression` repetition read after it; a match consumes input and blank input never matches |
| Grammar.ParseArrayTail | src/kunjs/grammar.cc:227 | the `+lit(",") assignment_expression` repetition: empty without ",", and its first element is the assignment expression after the commas, and the rest is the same repetition read after that element; it never fails softly, never grows the input, and gives the empty list on blank input |
| IR.TypeOf | src/kunjs/compiler/expression_compiler.cc:97-162 | floating-point instructions and SIToFP conversions have type double; an integer instruction has the type of its operands |
| IR.ToDouble | src/kunjs/compiler/expression_compiler.cc:97-115 | the result is always a double: a double operand comes back unchanged, any other is wrapped in an SIToFP conversion |
| IR.Wrap64 | src/kunjs/compiler/expression_compiler.cc:97-162 | the result is a 64-bit value congruent to the exact one modulo 2^64, and equal to it when it already fits |
| IR.TruncDiv | src/kunjs/compiler/expression_compiler.cc:144-152 | the magnitude of the sdiv quotient is the magnitude of the dividend divided by that of the divisor (rounding toward zero) |
| IR.TruncRem | src/kunjs/compiler/expression_compiler.cc:154-162 | the srem remainder is smaller in magnitude than the divisor and has the sign of the dividend |
| IR.TruncDivRem | src/kunjs/compiler/expression_compiler.cc:144-162 | sdiv and srem agree: dividend == quotient * divisor + remainder |
| IR.TruncDivFits | src/kunjs/compiler/expression_compiler.cc:144-162 | for 64-bit operands other than the most negative value over -1, the sdiv quotient and srem remainder fit in 64 bits |
| IR.EvalInt | src/kunjs/compiler/expression_compiler.cc:97-162 | an integer value that evaluates always evaluates to a 64-bit integer |
| IR.EvalBinary | src/kunjs/compiler/expression_compiler.cc:97-162 | the integer instruction on two evaluated operands gives a 64-bit integer when defined |
| IR.UndefinedOperandPropagates | src/kunjs/compiler/expression_compiler.cc:97-162 | an integer instruction with an operand that has no integer value has none either |
| Lexical.SkipSpace | src/kunjs/grammar.cc:58 | the skipper drops leading white space: the rest is no longer and does not start with white space |
| Lexical.SkipSpaceDropsOnlySpace | src/kunjs/grammar.cc:58 | what the skipper leaves is a suffix of the input, and every character it dropped is white space |
| Lexical.SkipBlank | src/kunjs/grammar.cc:105-107 | drops leading blanks other than line terminators: the rest is no longer and does not start with a blank |
| Lexical.SkipBlankDropsOnlyBlanks | src/kunjs/grammar.cc:105-107 | what SkipBlank leaves is a suffix of the input, and every character it dropped is a blank |
| Lexical.Lit | src/kunjs/grammar.cc:61-269 | a literal token matches exactly when the skipped input starts with it; the rest is what follows it and is shorter; blank input never matches |
| Lexical.AlnumRun | src/kunjs/grammar.cc:235 | the length of the longest alphanumeric prefix |
| Lexical.DigitRun | src/kunjs/grammar.cc:265 | the length of the longest prefix of decimal digits |
| Lexical.IdentifierName | src/kunjs/grammar.cc:235-237 | no match exactly when the skipped input does not start with a letter, "$" or "_"; a match is an identifier name followed by no alphanumeric character |
| Lexical.IdentifierToken | src/kunjs/grammar.cc:232 | an identifier matches exactly when no reserved word starts the input and an identifier name does |
| Lexical.FirstOf | src/kunjs/grammar.cc:128-196 | an ordered alternative of string tokens: no match exactly when no alternative starts the input; a match is one of the alternatives, followed by the rest |
| Lexical.AssignmentOperator | src/kunjs/grammar.cc:128-140 | a match is "=" or one of the compound assignment operators, followed by the rest |
| Lexical.AgreeFromMeansEqualPrefix | src/kunjs/grammar.cc:156-196 | character-by-character agreement from position k is equality of the two slices |
| Lexical.NotProperPrefixOfAnyAt | src/kunjs/grammar.cc:156-196 | an operator that is a proper prefix of no later operator is not one of any given later operator |
| Lexical.LongestFirstAt | src/kunjs/grammar.cc:156-196 | in a longest-first table no operator is a proper prefix of a later one |
| Lexical.FirstOfIsLongest | src/kunjs/grammar.cc:156-196 | on a longest-first table the first alternative that matches is at least as long as every alternative that matches |
| Lexical.EqualityOperatorsLongestFirst | src/kunjs/grammar.cc:157-161 | "===" and "!==" come before "==" and "!=": the equality alternatives are longest-first |
| Lexical.RelationalOperatorsLongestFirst | src/kunjs/grammar.cc:164-170 | "<=" before "<", ">=" before ">", "instanceof" before "in": the relational alternatives are longest-first |
| Lexical.ShiftOperatorsLongestFirst | src/kunjs/grammar.cc:173-176 | ">>>" before ">>": the shift alternatives are longest-first |
| Lexical.UnaryOperatorsLongestFirst | src/kunjs/grammar.cc:188-196 | "++" and "--" before "+" and "-": the unary alternatives are longest-first |
| Lexical.CompoundAssignmentOperatorsLongestFirst | src/kunjs/grammar.cc:130-140 | the compound assignment alternatives are longest-first |
| Lexical.LongestFirstCons | src/kunjs/grammar.cc:130-140 | an operator that is a proper prefix of none of a longest-first table can be put in front of it |
| Lexical.CompoundAdditiveOperatorsLongestFirst | src/kunjs/grammar.cc:132-140 | the compound assignment alternatives from "%=" on are longest-first |
| Lexical.CompoundShiftOperatorsLongestFirst | src/kunjs/grammar.cc:134-140 | the compound assignment alternatives from "-=" on are longest-first |
| Lexical.CompoundBitwiseOperatorsLongestFirst | src/kunjs/grammar.cc:137-140 | the compound assignment alternatives from ">>>=" on are longest-first |
| Lexical.AssignmentOperatorsLongestFirst | src/kunjs/grammar.cc:128-140 | "=" followed by the compound assignment alternatives is longest-first |
| Lexical.NoneStartsWithBlocksPrefix | src/kunjs/grammar.cc:128-140 | an operator whose first character starts no later operator is a proper prefix of none of them |
| Lexical.OperatorAlternativesPickLongest | src/kunjs/grammar.cc:128-199 | every operator alternative of the expression grammar picks the longest operator the input starts with |
| Lexical.AssignmentOperatorIsFirstOf | src/kunjs/grammar.cc:128-140 | when the input does not start with "==", the assignment operator is the first of "=" and the compound operators that matches |
| Lexical.NoneStartsWithMeansNoMatch | src/kunjs/grammar.cc:128-196 | when no alternative starts with the input's first character, the alternative does not match |
| Lexical.CompoundOperatorsStartOtherwise | src/kunjs/grammar.cc:130-140 | no compound assignment operator starts with "=" |
| Lexical.AssignmentOperatorRejectsEquality | src/kunjs/grammar.cc:129 | input starting with "==" has no assignment operator |
| Lexical.ReservedWordsAreNotIdentifiers | src/kunjs/grammar.cc:239-255 | a keyword or future reserved word standing as a whole word is never an identifier |
| Lexical.LiteralWordsBlockIdentifiers | src/kunjs/grammar.cc:242-244 | "null", "true" and "false" are reserved with no word-boundary check, so an input starting with them (such as "nullable") is not an identifier |
| Lexical.NotEolAsWrittenAlwaysHolds | src/kunjs/grammar.cc:105-107 | the `!eol` guard as written succeeds on every input, since the skipper has already consumed line terminators |
| Lexical.LineBreakPassesNotEolAsWritten | src/kunjs/grammar.cc:105-107 | a line break followed by a name passes the guard as written but fails the intended one |
| Lexical.NotEolRejectsLineBreak | src/kunjs/grammar.cc:105-107 | the intended guard fails whenever only blanks precede a line terminator |
| Lexical.UnaryOperatorList | src/kunjs/grammar.cc:187-196 | *unary_operator: every operator collected is a unary operator, the input never grows, blank input gives none, and no unary operator follows; when a unary operator starts the input, it is the first one collected and the rest of the list is read after it |
| Lexical.NewOperatorList | src/kunjs/grammar.cc:208 | *string("new"): every word collected is "new", the input never grows, blank input gives none, and no "new" follows; when "new" starts the input, one "new" is collected and the rest of the list is read after it |
| Lexical.PostfixOperator | src/kunjs/grammar.cc:198-199 | a postfix "++" or "--" only on the same line: a match passes the intended `!eol` guard and consumes input, a line break means no operator, and on the same line the operator is the first of "++" and "--" that is present |
| Lexical.Digit | src/kunjs/grammar.cc:265 | the value of a decimal digit is below 10 |
| Lexical.ExponentLength | src/kunjs/grammar.cc:265 | the length of an exponent part, which starts with "e" or "E" when there is one |
| Lexical.NumericLiteralToken | src/kunjs/grammar.cc:265 | a double exactly when a double spelling starts the input, and then the whole spelling is read and contains a decimal point; an int exactly when a digit run with no decimal point after it starts the input and its value is at most 2^31-1, and then the value is that run's and the rest follows the run |
| Lexical.DoubleLength | src/kunjs/grammar.cc:265 | a double spelling is present exactly when a decimal point follows the leading digits and has a digit on at least one side, and it reaches past that point |
| Lexical.IndexOf | src/kunjs/grammar.cc:267-269 | the index of the first quote character, or the length when there is none |
| Lexical.QuotedText | src/kunjs/grammar.cc:267-269 | a quoted string is read exactly when the input starts with the quote and the quote occurs again later; the text is everything up to the first closing quote and holds no quote character |
| Lexical.LiteralToken | src/kunjs/grammar.cc:257-263 | the alternatives in order: "null" gives NullLiteral, "true" and "false" give BoolLiteral(true) and BoolLiteral(false) with the rest after the word, then the number NumericLiteralToken reads, then the text QuotedText reads with '"' and then with '\''; no literal exactly when all of them fail |
| Parser.Parse | src/kunjs/parser.cc:10-38 | accepts exactly when the grammar matched and only white space is left; the AST is the program matched; blank input is accepted as the empty program |
| Parser.ProgramNeverNoMatch | src/kunjs/parser.cc:17 | the program rule never fails softly: it matches, without growing the input, or aborts |
| Parser.EmptyProgramsAccepted | test/parser_test.cc:42-52 | the empty input and "\n" both match the empty program with only white space left |
| Parser.TryStartsNoExpression | src/kunjs/grammar.cc:125-233 | input that starts with the keyword "try" is no expression: the chain fails softly at every level |
| Parser.TryStartsOnlyTryStatement | src/kunjs/grammar.cc:62-123 | a statement or source element that starts with "try" is exactly the try statement rule's result |
| Parser.BareTryRejected | test/parser_test.cc:246-256 | `try { ... }` followed only by white space, with neither catch nor finally, is not accepted |
| Parser.SwitchBodySplit | src/kunjs/grammar.cc:112-115 | a switch holds first the case clauses read after "{", then a default clause exactly when "default" comes next, then the case clauses after it; with no default clause nothing follows the first clauses |
| Printer.Console.constructor | src/kunjs/printer.cc:33 | the standard output starts with no lines |
| Printer.Console.WriteLine | src/kunjs/printer.cc:33 | writing a line with `std::endl` appends exactly that line |
| Printer.Indent | src/kunjs/printer.cc:14-20 | the counting loop builds exactly Spaces(level): `level` spaces, none for a negative level |
| Printer.Emit | src/kunjs/printer.cc:33 | appends exactly one line: the indentation followed by the text |
| Printer.PrintProgram | src/kunjs/printer.cc:31-36 | appends exactly ProgramLines: a "(Program " section holding every source element one step deeper |
| Printer.PrintSourceElementList | src/kunjs/printer.cc:34 | appends exactly SourceElementListLines: the source elements in order, each at the same indentation |
| Printer.PrintSourceElement | src/kunjs/printer.cc:38-43 | appends exactly SourceElementLines: a "(SourceElement " section holding the element one step deeper |
| Printer.PrintSourceElementBody | src/kunjs/printer.cc:41-47 | appends exactly SourceElementBodyLines: the "(FunctionDeclaration)" placeholder line, or the statement |
| Printer.PrintStatementList | src/kunjs/printer.cc:27-29 | appends exactly StatementListLines: the statements in order, each at the same indentation |
| Printer.PrintStatement | src/kunjs/printer.cc:49-54 | appends exactly StatementLines: a "(Statement " section holding the statement body one step deeper |
| Printer.PrintStatementSection | src/kunjs/printer.cc:98-100 | appends exactly StatementSectionLines: a titled section holding a statement one step deeper |
| Printer.PrintStatementBody | src/kunjs/printer.cc:52 | appends exactly StatementBodyLines: the lines of the statement kind the visitor dispatches to |
| Printer.PrintBranching | src/kunjs/printer.cc:87-145 | appends exactly BranchingLines: the lines of an if, do-while or while statement |
| Printer.PrintForLoop | src/kunjs/printer.cc:147-254 | appends exactly ForLoopLines: the lines of one of the four for loops |
| Printer.PrintCompound | src/kunjs/printer.cc:286-391 | appends exactly CompoundLines: the lines of a with, labelled, switch or try statement |
| Printer.PrintJumpStatement | src/kunjs/printer.cc:256-284 | appends exactly JumpStatementLines: the one "(Continue …)" or "(Break …)" line, or the return or throw lines |
| Printer.PrintSimpleStatement | src/kunjs/printer.cc:59-85 | appends exactly SimpleStatementLines: the lines of an expression, var, empty or debugger statement, or of a block |
| Printer.PrintExpression | src/kunjs/printer.cc:59-64 | appends exactly ExpressionLines: a "(Expression " section with every item one step deeper, in order |
| Printer.PrintExpressionSection | src/kunjs/printer.cc:94-96 | appends exactly ExpressionSectionLines: a titled section holding an expression list one step deeper |
| Printer.PrintVar | src/kunjs/printer.cc:66-70 | appends exactly VarLines: one "(Var" block per declaration, in order |
| Printer.PrintVarDeclaration | src/kunjs/printer.cc:72-81 | appends exactly VarDeclarationLines: "(Var", the "(name …)" line one step deeper, the initializer when present, ")" |
| Printer.PrintInitializer | src/kunjs/printer.cc:78 | appends exactly InitializerLines: the initializer one step deeper when present, nothing otherwise |
| Printer.PrintIf | src/kunjs/printer.cc:87-109 | appends exactly IfLines: "(If ", the condition and true-clause sections, the false-clause section only when present, ")" |
| Printer.PrintElse | src/kunjs/printer.cc:102-106 | appends exactly ElseLines: the "(false_clause " section when there is an else branch, nothing otherwise |
| Printer.PrintDoWhile | src/kunjs/printer.cc:111-127 | appends exactly DoWhileLines: "(DoWhile ", the body section, then the condition section, ")" |
| Printer.PrintWhile | src/kunjs/printer.cc:129-145 | appends exactly WhileLines: "(While ", the condition section, then the body section, ")" |
| Printer.PrintOptionalExpression | src/kunjs/printer.cc:154-170 | appends exactly OptionalExpressionLines: a titled section when the loop part is present, nothing otherwise |
| Printer.PrintFor | src/kunjs/printer.cc:147-177 | appends exactly ForLines: a "(For " section around the loop parts |
| Printer.PrintForBody | src/kunjs/printer.cc:154-174 | appends exactly ForBodyLines: each of initialization, condition and action only when present, then the body |
| Printer.PrintVarDeclarationSection | src/kunjs/printer.cc:187-189 | appends exactly VarDeclarationSectionLines: a titled section holding a declaration one step deeper |
| Printer.PrintLhsSection | src/kunjs/printer.cc:219-221 | appends exactly LhsSectionLines: a titled section holding a left-hand side one step deeper |
| Printer.PrintForWithVar | src/kunjs/printer.cc:179-209 | appends exactly ForWithVarLines: a "(ForWithVar " section around the loop parts |
| Printer.PrintForWithVarBody | src/kunjs/printer.cc:186-206 | appends exactly ForWithVarBodyLines: one "(initialization " section per declaration, the optional condition and action, then the body |
| Printer.PrintInitializationList | src/kunjs/printer.cc:186-190 | appends exactly InitializationListLines: one "(initialization " section per declaration, in order |
| Printer.PrintForeach | src/kunjs/printer.cc:211-232 | appends exactly ForeachLines: "(Foreach ", the item, list and body sections in that order, ")" |
| Printer.PrintForeachWithVar | src/kunjs/printer.cc:234-254 | appends exactly ForeachWithVarLines: "(ForeachWithVar ", the item, list and body sections in that order, ")" |
| Printer.PrintJump | src/kunjs/printer.cc:256-272 | appends exactly JumpLines: one line, "(Continue (label L))" when labelled and "(Continue)" otherwise (likewise Break) |
| Printer.PrintReturn | src/kunjs/printer.cc:274-284 | appends exactly ReturnLines: "(Return)" alone, or "(Return", the expression one step deeper, ")" |
| Printer.PrintWith | src/kunjs/printer.cc:286-302 | appends exactly WithLines: "(With", the context section, then the body section, ")" |
| Printer.PrintLabelled | src/kunjs/printer.cc:304-312 | appends exactly LabelledLines: "(LabelledStatement", the "(label …)" line and the statement one step deeper, ")" |
| Printer.PrintCase | src/kunjs/printer.cc:314-328 | appends exactly CaseLines: "(Case", the match section, the statements one step deeper, ")" |
| Printer.PrintCaseList | src/kunjs/printer.cc:342-356 | appends exactly CaseListLines: the cases in order, each at the same indentation |
| Printer.PrintSwitch | src/kunjs/printer.cc:330-359 | appends exactly SwitchLines: a "(Switch" section around the switch body |
| Printer.PrintSwitchBody | src/kunjs/printer.cc:338-356 | appends exactly SwitchBodyLines: the condition, the leading cases, the default when present, then the trailing cases |
| Printer.PrintDefault | src/kunjs/printer.cc:347-351 | appends exactly DefaultLines: the "(Default" section when the switch has one, nothing otherwise |
| Printer.PrintThrow | src/kunjs/printer.cc:361-366 | appends exactly ThrowLines: "(Throw", the expression one step deeper, ")" |
| Printer.PrintTry | src/kunjs/printer.cc:368-391 | appends exactly TryLines: "(Try", the statements, the catch section and the finally section each only when present, ")" |
| Printer.PrintCatch | src/kunjs/printer.cc:376-382 | appends exactly CatchLines: the "(Catch" section with the exception name when there is a catch block, nothing otherwise |
| Printer.PrintFinally | src/kunjs/printer.cc:384-388 | appends exactly FinallyLines: the "(Finally" section when there is a finally block, nothing otherwise |
| Printer.PrintAssignment | src/kunjs/printer.cc:405-422 | appends exactly AssignmentLines: "(AssignmentExpression", one "(AssignmentOperation" block per target, the conditional, ")" |
| Printer.PrintAssignmentOperationList | src/kunjs/printer.cc:412-418 | appends exactly AssignmentOperationListLines: one "(AssignmentOperation" block per target with its left-hand side and operator, in order |
| Printer.PrintConditional | src/kunjs/printer.cc:424-445 | appends exactly ConditionalLines: "(ConditionalExpression", the condition, the two clause sections only for a ternary, ")" |
| Printer.PrintClauses | src/kunjs/printer.cc:432-442 | appends exactly ClausesLines: the "(true_clause" and "(false_clause" sections of a ternary, nothing otherwise |
| Printer.PrintAssignmentSection | src/kunjs/printer.cc:435-441 | appends exactly AssignmentSectionLines: a titled section holding an assignment expression one step deeper |
| Printer.PrintLogicalOr | src/kunjs/printer.cc:447-454 | appends exactly LogicalOrLines: "(LogicalOrExpression", the first operand and every further operand one step deeper, ")" |
| Printer.PrintLogicalAnd | src/kunjs/printer.cc:456-463 | appends exactly LogicalAndLines: "(LogicalAndExpression", every operand one step deeper, ")" |
| Printer.PrintBitwiseOr | src/kunjs/printer.cc:465-472 | appends exactly BitwiseOrLines: "(BitwiseOrExpression", every operand one step deeper, ")" |
| Printer.PrintBitwiseXor | src/kunjs/printer.cc:474-481 | appends exactly BitwiseXorLines: "(BitwiseXorExpression", every operand one step deeper, ")" |
| Printer.PrintBitwiseAnd | src/kunjs/printer.cc:483-490 | appends exactly BitwiseAndLines: "(BitwiseAndExpression", every operand one step deeper, ")" |
| Printer.PrintEquality | src/kunjs/printer.cc:492-506 | appends exactly EqualityLines: "(EqualityExpression", the first operand, then "(operator op)" and the operand for each operation in order, ")" |
| Printer.PrintRelational | src/kunjs/printer.cc:508-522 | appends exactly RelationalLines: "(RelationalExpression", the first operand, then "(operator op)" and the operand for each operation in order, ")" |
| Printer.PrintShift | src/kunjs/printer.cc:524-538 | appends exactly ShiftLines: "(ShiftExpression", the first operand, then "(operator op)" and the operand for each operation in order, ")" |
| Printer.PrintAdditive | src/kunjs/printer.cc:540-554 | appends exactly AdditiveLines: "(AdditiveExpression", the first operand, then "(operator op)" and the operand for each operation in order, ")" |
| Printer.PrintMultiplicative | src/kunjs/printer.cc:556-570 | appends exactly MultiplicativeLines: "(MultiplicativeExpression", the first operand, then "(operator op)" and the operand for each operation in order, ")" |
| Printer.PrintOperators | src/kunjs/printer.cc:577-580 | appends exactly OperatorLines: one "(operator op)" line per prefix operator, in order |
| Printer.PrintUnary | src/kunjs/printer.cc:572-584 | appends exactly UnaryLines: "(UnaryExpression", the operator lines, the operand, ")" |
| Printer.PrintPostfix | src/kunjs/printer.cc:586-598 | appends exactly PostfixLines: "(PostfixExpression", the operand, the "(operator op)" line only when there is one, ")" |
| Printer.PrintPostfixOperator | src/kunjs/printer.cc:593-595 | appends exactly PostfixOperatorLines: an "(operator op)" line when there is a postfix operator, nothing otherwise |
| Printer.PrintLhs | src/kunjs/printer.cc:600-605 | appends exactly LhsLines: an "(LhsExpression" section around the call or new expression |
| Printer.PrintLhsBody | src/kunjs/printer.cc:603-609 | appends exactly LhsBodyLines: the "(CallExpression)" placeholder line, or the new expression |
| Printer.PrintNew | src/kunjs/printer.cc:611-623 | appends exactly NewLines: "(NewExpression", one "(operator new)" line per operator, the member expression, ")" |
| Printer.PrintMember | src/kunjs/printer.cc:625-630 | appends exactly MemberLines: a "(MemberExpression" section around the member access or instantiation |
| Printer.PrintMemberBody | src/kunjs/printer.cc:628 | appends exactly MemberBodyLines: the lines of the member access or of the instantiation |
| Printer.PrintMemberAccess | src/kunjs/printer.cc:632-648 | appends exactly MemberAccessLines: "(MemberAccess", the member section, the "(modifiers " section only when there are modifiers, ")" |
| Printer.PrintModifiers | src/kunjs/printer.cc:641-645 | appends exactly ModifiersLines: the "(modifiers " section with one "(MemberModifier)" line per modifier, nothing when there are none |
| Printer.PrintInstantiation | src/kunjs/printer.cc:661-674 | appends exactly InstantiationLines: "(Instantiation", the member, the "(arguments " section holding the arguments as an expression list, ")" |
| Printer.PrintArguments | src/kunjs/printer.cc:669-671 | appends exactly ArgumentsLines: the "(arguments " section holding the arguments as one "(Expression " list |
| Printer.PrintAssignmentList | src/kunjs/printer.cc:702-705 | appends exactly AssignmentListLines: the items of an expression list in order, each at the same indentation |
| Printer.PrintMemberOptions | src/kunjs/printer.cc:650-655 | appends exactly MemberOptionsLines: a "(MemberOptions" section around the primary or function expression |
| Printer.PrintMemberOptionsBody | src/kunjs/printer.cc:653 | appends exactly MemberOptionsBodyLines: the primary expression, or the "(FunctionExpression)" placeholder line |
| Printer.PrintPrimary | src/kunjs/printer.cc:676-681 | appends exactly PrimaryLines: a "(PrimaryExpression" section around the primary body |
| Printer.PrintPrimaryBody | src/kunjs/printer.cc:690-705 | appends exactly PrimaryBodyLines: "(This)", "(identifier name)", "(literal text)", or the grouped expression list |
| PrinterLines.Spaces | src/kunjs/printer.cc:14-20 | `Indent(level)` is exactly `level` spaces, none for a negative level |
| PrinterLines.Section | src/kunjs/printer.cc:31-54 | a section is the inner lines plus an opening and a closing line |
| PrinterLines.DecimalText | src/kunjs/printer.cc:698-700 | the decimal spelling of a number is a non-empty string of digits |
| PrinterLines.LiteralText | src/kunjs/printer.cc:698-712 | null prints "null", booleans "1" and "0", a string its text, an integer its decimal digits (with "-" exactly when negative), which read back as its value; a double prints its spelling |
| PrinterLines.JumpLine | src/kunjs/printer.cc:256-272 | the one continue or break line, indented to the node: "(Continue)" exactly when there is no label, otherwise "(Continue (label L))" |
| PrinterLines.ProgramLines | src/kunjs/printer.cc:31-36 | a "(Program " section holding every source element one step deeper; every line indented at least `level` deep |
| PrinterLines.SourceElementListLines | src/kunjs/printer.cc:34 | the source elements in order, each at the same indentation; every line indented at least `level` deep |
| PrinterLines.SourceElementLines | src/kunjs/printer.cc:38-43 | a "(SourceElement " section holding the element one step deeper; every line indented at least `level` deep |
| PrinterLines.SourceElementBodyLines | src/kunjs/printer.cc:41-47 | the "(FunctionDeclaration)" placeholder line, or the statement; every line indented at least `level` deep |
| PrinterLines.FunctionDeclarationLines | src/kunjs/printer.cc:45-47 | the single placeholder line "(FunctionDeclaration)"; every line indented at least `level` deep |
| PrinterLines.StatementListLines | src/kunjs/printer.cc:27-29 | the statements in order, each at the same indentation; every line indented at least `level` deep |
| PrinterLines.StatementLines | src/kunjs/printer.cc:49-54 | a "(Statement " section holding the statement body one step deeper; every line indented at least `level` deep |
| PrinterLines.StatementSectionLines | src/kunjs/printer.cc:98-100 | a titled section holding a statement one step deeper; every line indented at least `level` deep |
| PrinterLines.ExpressionSectionLines | src/kunjs/printer.cc:94-96 | a titled section holding an expression list one step deeper; every line indented at least `level` deep |
| PrinterLines.StatementBodyLines | src/kunjs/printer.cc:52 | the lines of the statement kind the visitor dispatches to; every line indented at least `level` deep |
| PrinterLines.BranchingLines | src/kunjs/printer.cc:87-145 | the lines of an if, do-while or while statement; every line indented at least `level` deep |
| PrinterLines.ForLoopLines | src/kunjs/printer.cc:147-254 | the lines of one of the four for loops; every line indented at least `level` deep |
| PrinterLines.CompoundLines | src/kunjs/printer.cc:286-391 | the lines of a with, labelled, switch or try statement; every line indented at least `level` deep |
| PrinterLines.JumpStatementLines | src/kunjs/printer.cc:256-284 | the one "(Continue …)" or "(Break …)" line, or the return or throw lines; every line indented at least `level` deep |
| PrinterLines.SimpleStatementLines | src/kunjs/printer.cc:59-85 | the lines of an expression, var, empty or debugger statement, or of a block; every line indented at least `level` deep |
| PrinterLines.ExpressionLines | src/kunjs/printer.cc:59-64 | a "(Expression " section with every item one step deeper, in order; every line indented at least `level` deep |
| PrinterLines.VarLines | src/kunjs/printer.cc:66-70 | one "(Var" block per declaration, in order; every line indented at least `level` deep |
| PrinterLines.VarDeclarationListLines | src/kunjs/printer.cc:67-69 | the declarations in order, each at the same indentation; every line indented at least `level` deep |
| PrinterLines.VarDeclarationLines | src/kunjs/printer.cc:72-81 | "(Var", the "(name …)" line one step deeper, the initializer when present, ")"; every line indented at least `level` deep |
| PrinterLines.InitializerLines | src/kunjs/printer.cc:78 | the initializer one step deeper when present, nothing otherwise; every line indented at least `level` deep |
| PrinterLines.IfLines | src/kunjs/printer.cc:87-109 | "(If ", the condition and true-clause sections, the false-clause section only when present, ")"; every line indented at least `level` deep |
| PrinterLines.ElseLines | src/kunjs/printer.cc:102-106 | the "(false_clause " section when there is an else branch, nothing otherwise; every line indented at least `level` deep |
| PrinterLines.DoWhileLines | src/kunjs/printer.cc:111-127 | "(DoWhile ", the body section, then the condition section, ")"; every line indented at least `level` deep |
| PrinterLines.WhileLines | src/kunjs/printer.cc:129-145 | "(While ", the condition section, then the body section, ")"; every line indented at least `level` deep |
| PrinterLines.OptionalExpressionLines | src/kunjs/printer.cc:154-170 | a titled section when the loop part is present, nothing otherwise; every line indented at least `level` deep |
| PrinterLines.ForLines | src/kunjs/printer.cc:147-177 | a "(For " section around the loop parts; every line indented at least `level` deep |
| PrinterLines.ForBodyLines | src/kunjs/printer.cc:154-174 | each of initialization, condition and action only when present, then the body; every line indented at least `level` deep |
| PrinterLines.InitializationListLines | src/kunjs/printer.cc:186-190 | one "(initialization " section per declaration, in order; every line indented at least `level` deep |
| PrinterLines.VarDeclarationSectionLines | src/kunjs/printer.cc:187-189 | a titled section holding a declaration one step deeper; every line indented at least `level` deep |
| PrinterLines.LhsSectionLines | src/kunjs/printer.cc:219-221 | a titled section holding a left-hand side one step deeper; every line indented at least `level` deep |
| PrinterLines.ForWithVarLines | src/kunjs/printer.cc:179-209 | a "(ForWithVar " section around the loop parts; every line indented at least `level` deep |
| PrinterLines.ForWithVarBodyLines | src/kunjs/printer.cc:186-206 | one "(initialization " section per declaration, the optional condition and action, then the body; every line indented at least `level` deep |
| PrinterLines.ForeachLines | src/kunjs/printer.cc:211-232 | "(Foreach ", the item, list and body sections in that order, ")"; every line indented at least `level` deep |
| PrinterLines.ForeachWithVarLines | src/kunjs/printer.cc:234-254 | "(ForeachWithVar ", the item, list and body sections in that order, ")"; every line indented at least `level` deep |
| PrinterLines.ReturnLines | src/kunjs/printer.cc:274-284 | "(Return)" alone, or "(Return", the expression one step deeper, ")"; every line indented at least `level` deep |
| PrinterLines.WithLines | src/kunjs/printer.cc:286-302 | "(With", the context section, then the body section, ")"; every line indented at least `level` deep |
| PrinterLines.LabelledLines | src/kunjs/printer.cc:304-312 | "(LabelledStatement", the "(label …)" line and the statement one step deeper, ")"; every line indented at least `level` deep |
| PrinterLines.CaseLines | src/kunjs/printer.cc:314-328 | "(Case", the match section, the statements one step deeper, ")"; every line indented at least `level` deep |
| PrinterLines.CaseListLines | src/kunjs/printer.cc:342-356 | the cases in order, each at the same indentation; every line indented at least `level` deep |
| PrinterLines.DefaultLines | src/kunjs/printer.cc:347-351 | the "(Default" section when the switch has one, nothing otherwise; every line indented at least `level` deep |
| PrinterLines.SwitchLines | src/kunjs/printer.cc:330-359 | a "(Switch" section around the switch body; every line indented at least `level` deep |
| PrinterLines.SwitchBodyLines | src/kunjs/printer.cc:338-356 | the condition, the leading cases, the default when present, then the trailing cases; every line indented at least `level` deep |
| PrinterLines.CatchLines | src/kunjs/printer.cc:376-382 | the "(Catch" section with the exception name when there is a catch block, nothing otherwise; every line indented at least `level` deep |
| PrinterLines.FinallyLines | src/kunjs/printer.cc:384-388 | the "(Finally" section when there is a finally block, nothing otherwise; every line indented at least `level` deep |
| PrinterLines.TryLines | src/kunjs/printer.cc:368-391 | "(Try", the statements, the catch section and the finally section each only when present, ")"; every line indented at least `level` deep |
| PrinterLines.AssignmentListLines | src/kunjs/printer.cc:702-705 | the items of an expression list in order, each at the same indentation; every line indented at least `level` deep |
| PrinterLines.AssignmentLines | src/kunjs/printer.cc:405-422 | "(AssignmentExpression", one "(AssignmentOperation" block per target, the conditional, ")"; every line indented at least `level` deep |
| PrinterLines.AssignmentOperationListLines | src/kunjs/printer.cc:412-418 | one "(AssignmentOperation" block per target with its left-hand side and operator, in order; every line indented at least `level` deep |
| PrinterLines.ConditionalLines | src/kunjs/printer.cc:424-445 | "(ConditionalExpression", the condition, the two clause sections only for a ternary, ")"; every line indented at least `level` deep |
| PrinterLines.ClausesLines | src/kunjs/printer.cc:432-442 | the "(true_clause" and "(false_clause" sections of a ternary, nothing otherwise; every line indented at least `level` deep |
| PrinterLines.LogicalOrLines | src/kunjs/printer.cc:447-454 | "(LogicalOrExpression", the first operand and every further operand one step deeper, ")"; every line indented at least `level` deep |
| PrinterLines.LogicalAndListLines | src/kunjs/printer.cc:452 | the operands of a logical or chain in order; every line indented at least `level` deep |
| PrinterLines.LogicalAndLines | src/kunjs/printer.cc:456-463 | "(LogicalAndExpression", every operand one step deeper, ")"; every line indented at least `level` deep |
| PrinterLines.BitwiseOrListLines | src/kunjs/printer.cc:461 | the operands of a logical and chain in order; every line indented at least `level` deep |
| PrinterLines.BitwiseOrLines | src/kunjs/printer.cc:465-472 | "(BitwiseOrExpression", every operand one step deeper, ")"; every line indented at least `level` deep |
| PrinterLines.BitwiseXorListLines | src/kunjs/printer.cc:470 | the operands of a bitwise or chain in order; every line indented at least `level` deep |
| PrinterLines.BitwiseXorLines | src/kunjs/printer.cc:474-481 | "(BitwiseXorExpression", every operand one step deeper, ")"; every line indented at least `level` deep |
| PrinterLines.BitwiseAndListLines | src/kunjs/printer.cc:479 | the operands of a bitwise xor chain in order; every line indented at least `level` deep |
| PrinterLines.BitwiseAndLines | src/kunjs/printer.cc:483-490 | "(BitwiseAndExpression", every operand one step deeper, ")"; every line indented at least `level` deep |
| PrinterLines.EqualityListLines | src/kunjs/printer.cc:488 | the operands of a bitwise and chain in order; every line indented at least `level` deep |
| PrinterLines.EqualityLines | src/kunjs/printer.cc:492-506 | "(EqualityExpression", the first operand, then "(operator op)" and the operand for each operation in order, ")"; every line indented at least `level` deep |
| PrinterLines.EqualityOperationListLines | src/kunjs/printer.cc:492-506 | an "(operator op)" line and the operand after it, for each operation in order; every line indented at least `level` deep |
| PrinterLines.RelationalLines | src/kunjs/printer.cc:508-522 | "(RelationalExpression", the first operand, then "(operator op)" and the operand for each operation in order, ")"; every line indented at least `level` deep |
| PrinterLines.RelationalOperationListLines | src/kunjs/printer.cc:508-522 | an "(operator op)" line and the operand after it, for each operation in order; every line indented at least `level` deep |
| PrinterLines.ShiftLines | src/kunjs/printer.cc:524-538 | "(ShiftExpression", the first operand, then "(operator op)" and the operand for each operation in order, ")"; every line indented at least `level` deep |
| PrinterLines.ShiftOperationListLines | src/kunjs/printer.cc:524-538 | an "(operator op)" line and the operand after it, for each operation in order; every line indented at least `level` deep |
| PrinterLines.AdditiveLines | src/kunjs/printer.cc:540-554 | "(AdditiveExpression", the first operand, then "(operator op)" and the operand for each operation in order, ")"; every line indented at least `level` deep |
| PrinterLines.AdditiveOperationListLines | src/kunjs/printer.cc:540-554 | an "(operator op)" line and the operand after it, for each operation in order; every line indented at least `level` deep |
| PrinterLines.MultiplicativeLines | src/kunjs/printer.cc:556-570 | "(MultiplicativeExpression", the first operand, then "(operator op)" and the operand for each operation in order, ")"; every line indented at least `level` deep |
| PrinterLines.MultiplicativeOperationListLines | src/kunjs/printer.cc:556-570 | an "(operator op)" line and the operand after it, for each operation in order; every line indented at least `level` deep |
| PrinterLines.OperatorLines | src/kunjs/printer.cc:577-580 | one "(operator op)" line per prefix operator, in order; every line indented at least `level` deep |
| PrinterLines.UnaryLines | src/kunjs/printer.cc:572-584 | "(UnaryExpression", the operator lines, the operand, ")"; every line indented at least `level` deep |
| PrinterLines.PostfixLines | src/kunjs/printer.cc:586-598 | "(PostfixExpression", the operand, the "(operator op)" line only when there is one, ")"; every line indented at least `level` deep |
| PrinterLines.PostfixOperatorLines | src/kunjs/printer.cc:593-595 | an "(operator op)" line when there is a postfix operator, nothing otherwise; every line indented at least `level` deep |
| PrinterLines.LhsLines | src/kunjs/printer.cc:600-605 | an "(LhsExpression" section around the call or new expression; every line indented at least `level` deep |
| PrinterLines.LhsBodyLines | src/kunjs/printer.cc:603-609 | the "(CallExpression)" placeholder line, or the new expression; every line indented at least `level` deep |
| PrinterLines.NewLines | src/kunjs/printer.cc:611-623 | "(NewExpression", one "(operator new)" line per operator, the member expression, ")"; every line indented at least `level` deep |
| PrinterLines.MemberLines | src/kunjs/printer.cc:625-630 | a "(MemberExpression" section around the member access or instantiation; every line indented at least `level` deep |
| PrinterLines.MemberBodyLines | src/kunjs/printer.cc:628 | the lines of the member access or of the instantiation; every line indented at least `level` deep |
| PrinterLines.MemberAccessLines | src/kunjs/printer.cc:632-648 | "(MemberAccess", the member section, the "(modifiers " section only when there are modifiers, ")"; every line indented at least `level` deep |
| PrinterLines.ModifiersLines | src/kunjs/printer.cc:641-645 | the "(modifiers " section with one "(MemberModifier)" line per modifier, nothing when there are none; every line indented at least `level` deep |
| PrinterLines.ModifierListLines | src/kunjs/printer.cc:643 | one "(MemberModifier)" placeholder line per modifier; every line indented at least `level` deep |
| PrinterLines.InstantiationLines | src/kunjs/printer.cc:661-674 | "(Instantiation", the member, the "(arguments " section holding the arguments as an expression list, ")"; every line indented at least `level` deep |
| PrinterLines.ArgumentsLines | src/kunjs/printer.cc:669-671 | the "(arguments " section holding the arguments as one "(Expression " list; every line indented at least `level` deep |
| PrinterLines.MemberOptionsLines | src/kunjs/printer.cc:650-655 | a "(MemberOptions" section around the primary or function expression; every line indented at least `level` deep |
| PrinterLines.MemberOptionsBodyLines | src/kunjs/printer.cc:653 | the primary expression, or the "(FunctionExpression)" placeholder line; every line indented at least `level` deep |
| PrinterLines.PrimaryLines | src/kunjs/printer.cc:676-681 | a "(PrimaryExpression" section around the primary body; every line indented at least `level` deep |
| PrinterLines.PrimaryBodyLines | src/kunjs/printer.cc:690-705 | "(This)", "(identifier name)", "(literal text)", or the grouped expression list; every line indented at least `level` deep |
| PrinterLines.DecimalTextValue | src/kunjs/printer.cc:698-700 | the printed digits of a number read back, by the lexer's digit value, as that number |
| PrinterLines.PrintedIntegerRelexes | src/kunjs/printer.cc:698-700 | a 32-bit non-negative integer literal as printed lexes back as the same literal with nothing left over |
| PrinterLines.AllIndentedConcat | src/kunjs/printer.cc:31-705 | lines all indented at least `level` deep stay so when concatenated |
| PrinterLines.LinesDiffer | src/kunjs/printer.cc:14-20 | two printed lines whose texts do not start with a space are equal exactly when their indentations and texts are |
| PrinterLines.NotAmongDeeper | src/kunjs/printer.cc:14-20 | a line at `level` is not among lines all indented deeper |
| PrinterLines.SectionLineAtLevel | src/kunjs/printer.cc:31-54 | at a section's own indentation only its title and its ")" appear |
| PrinterLines.NestedLine | src/kunjs/printer.cc:31-54 | a line one step deeper than a section's frame is in the section exactly when it is among its inner lines |
| PrinterLines.ExpressionSectionLine | src/kunjs/printer.cc:94-96 | at its own indentation a framed expression shows only its title and ")" |
| PrinterLines.StatementSectionLine | src/kunjs/printer.cc:98-100 | at its own indentation a framed statement shows only its title and ")" |
| PrinterLines.OptionalPartLine | src/kunjs/printer.cc:154-170 | an optional loop part shows its title and ")" at its indentation exactly when it is present |
| PrinterLines.StatementListLineAtLevel | src/kunjs/printer.cc:27-29 | at a statement list's indentation only "(Statement " and ")" appear, and both do exactly when the list is not empty |
| PrinterLines.CaseListLineAtLevel | src/kunjs/printer.cc:342-356 | at the cases' indentation only "(Case" and ")" appear, and both do exactly when there is a case |
| PrinterLines.IfParts | src/kunjs/printer.cc:87-109 | an if statement shows the "(condition " and "(true_clause " sections, and a "(false_clause " section exactly when it has an else branch |
| PrinterLines.ForParts | src/kunjs/printer.cc:147-177 | a for loop shows an "(initialization ", "(condition " or "(action " section exactly when it has that part, and always "(body " |
| PrinterLines.SwitchParts | src/kunjs/printer.cc:330-359 | a switch shows its condition, its cases when it has any, and a "(Default" section exactly when it has a default clause |
| PrinterLines.DefaultLine | src/kunjs/printer.cc:347-351 | a default clause shows its title and ")" exactly when present |
| PrinterLines.TryParts | src/kunjs/printer.cc:368-391 | a try statement shows its statements, and a "(Catch" or "(Finally" section exactly when it has that block |
| PrinterLines.CatchLine | src/kunjs/printer.cc:376-382 | a catch block shows its title and ")" exactly when present |
| PrinterLines.FinallyLine | src/kunjs/printer.cc:384-388 | a finally block shows its title and ")" exactly when present |
| PrinterLines.ConditionalParts | src/kunjs/printer.cc:424-445 | a conditional shows its condition, and the "(true_clause" and "(false_clause" sections exactly when it is a ternary |
| PrinterLines.LogicalOrLine | src/kunjs/printer.cc:447-454 | at its own indentation a logical or expression shows only "(LogicalOrExpression" and ")" |
| PrinterLines.ClausesLine | src/kunjs/printer.cc:432-442 | the clauses of a ternary show their titles and ")" at their indentation, and nothing for a plain operand |
| PrinterLines.PostfixParts | src/kunjs/printer.cc:586-598 | a postfix expression shows its operand, and an "(operator op)" line exactly when it has an operator |
| PrinterLines.MemberAccessParts | src/kunjs/printer.cc:632-648 | a member access shows its "(member " section, and a "(modifiers " section exactly when it has modifiers |
| PrinterLines.VarDeclarationParts | src/kunjs/printer.cc:72-81 | a declaration shows its "(name …)" line, and its initializer exactly when it has one |
| PrinterLines.AssignmentLine | src/kunjs/printer.cc:405-422 | at its own indentation an assignment expression shows only "(AssignmentExpression" and ")" |
| ProgramCompiler.ProgramCompiler.constructor | src/kunjs/compiler/program_compiler.cc:15-16 | a new compiler has no result yet |
| ProgramCompiler.ForEachResult | src/kunjs/compiler/program_compiler.cc:18-24 | the result `std::for_each` hands back: the copied initial result for no elements, the i64* null after at least one |
| ProgramCompiler.ProgramCompiler.Copy | src/kunjs/compiler/program_compiler.cc:18-24 | the copy for_each makes of the visitor has the same result |
| ProgramCompiler.ProgramCompiler.CompileFunctionDeclaration | src/kunjs/compiler/program_compiler.cc:31-34 | returns the i64* null and stores it as the result |
| ProgramCompiler.ProgramCompiler.CompileStatement | src/kunjs/compiler/program_compiler.cc:36-41 | returns the i64* null and stores it as the result |
| ProgramCompiler.ProgramCompiler.CompileSourceElement | src/kunjs/compiler/program_compiler.cc:26-29 | returns the i64* null and stores it as the result |
| ProgramCompiler.ProgramCompiler.CompileProgram | src/kunjs/compiler/program_compiler.cc:22-24 | a non-empty program gives the i64* null; an empty one gives the compiler's unchanged result |
| ProgramCompiler.ProgramCompiler.CompileStatements | src/kunjs/compiler/program_compiler.cc:18-20 | a non-empty statement list gives the i64* null; an empty one gives the compiler's unchanged result |
| StatementCompiler.CompileExpression | src/kunjs/compiler/statement_compiler.cc:20-27 | the value of the last item of the expression list |
| StatementCompiler.CompileVar | src/kunjs/compiler/statement_compiler.cc:29-44 | the value of the last declaration, which is always the i8* null |
| StatementCompiler.LowerVarDeclaration | src/kunjs/compiler/statement_compiler.cc:37-44 | a var declaration, with or without initializer, gives the same i8* null as the null literal, with no integer value |
| StatementCompiler.LowerCase | src/kunjs/compiler/statement_compiler.cc:216-227 | a case clause gives the same i8* null as the null literal: neither its match clause nor its statements are compiled |
| StatementCompiler.LowerStatement | src/kunjs/compiler/statement_compiler.cc:20-291 | nothing exactly for the empty block; an expression statement gives its last item's value, a var statement and every other non-block statement the i8* null, a non-empty block the program compiler's i64* null |
| StatementCompiler.CompileStatement | src/kunjs/compiler/statement_compiler.cc:46-291 | an expression statement gives its last item's value, a block gives the program compiler's placeholder (nothing when empty), every other statement the i8* null |
| StatementCompiler.StatementPlaceholders | src/kunjs/compiler/statement_compiler.cc:46-291 | statements other than expressions and blocks give the same value as the null literal, and a non-empty block gives a different one |

## Left out

- LLVM itself is out of scope: types, contexts, the IRBuilder, constant folding and the IR dump. Values are symbolic trees. Floating-point arithmetic is not evaluated, and a double constant is kept by its spelling, so the expected values of the floating-point tests (9.865, -61.932, 2.5, 6.25) are not derived. Only the fact that the result is a double is proved.
- Lexical.NumericLiteralToken: `numeric_literal` is `double_ | int_` (src/kunjs/grammar.cc:265). Spirit's default `double_` also accepts a plain digit string, so as written every number is a double and `int_` is never reached. The model splits numbers by spelling instead, which is the split the compiler tests rely on (test/compiler_test.cc:126-134, where "1+2;" yields an integer constant):
  - a double needs a decimal point and may have an exponent;
  - an int is a digit string whose value must fit in a signed 32-bit integer;
  - Spirit's other real-number spellings (such as `inf`, `nan`, or an exponent with no decimal point) are not modelled.
- The skipper is `boost::spirit::ascii::space`, modelled as the six ASCII white-space characters. Error reporting through `on_error` and `BOOST_SPIRIT_DEBUG_NODE` is not modelled: the error is a plain `Abort`, and debug output is left out.
- Console output of `Parser::parse` (src/kunjs/parser.cc:19-35) is left out: the AST dump and the success or failure banners. The model keeps the returned boolean and the AST.
- Parser.Parse: when the grammar aborts, the model returns the empty program as the AST. The partially filled attribute that Spirit can leave behind is not modelled.
- Parser.Parse: parser.cc:15 declares a local `ast`, so the program the grammar builds never reaches the caller's out-parameter that `parser.h` declares. The model returns the program that the grammar built.
- `src/kunjs/compiler.cc` (the `Compiler::compile` driver that parses and then runs the program compiler) is not part of this model. It drives the program compiler, and that compiler returns the i64* null for every source element (src/kunjs/compiler/program_compiler.cc:31-41), so the integer and floating-point results that the compiler tests expect come only from running the expression compiler directly. This is how `CompilerExamples` states them.
- Shift, relational, equality, bitwise and logical operations are not compiled: the source only forwards the left operand. CompilerExamples.ShiftLeftKeepsLeftOperand shows the consequence for the shift tests. The shift tests themselves (test/compiler_test.cc:66-124) are not modelled.
- INDENT_STEP is used by src/kunjs/printer.cc but defined in none of the files modelled here (printer.h does not define it), so its value is unknown. The model takes it as an arbitrary positive constant, and every printer property holds for all such values.
- The `std::vector<Statement>` handlers of the printer (src/kunjs/printer.cc:27-29, 397-400) print the statements directly. `PrinterLines.StatementListLines` is that list, with no separate wrapper.
- ProgramCompiler.ProgramCompiler.CompileProgram: the handlers in src/kunjs/compiler/program_compiler.cc:19-40 read and assign a `result` member, but program_compiler.h:19-31 declares none, so the code as shown does not compile. The model supplies that member as a field with the initial value `None`. For an empty program the source would return it unassigned, and the contract says only that it is unchanged.
- The legacy `kungjs` tree (src/ast.h, src/grammar.cc, src/parser.cc, src/kungjs.cc) is not modelled, because `src/kunjs` supersedes it.
- Unicode identifiers and the `object_literal` alternative are not modelled, since the grammar comments both out.
- PrinterLines.LiteralText: a boolean prints "1" or "0", the format of a stream with default flags. src/kunjs/parser.cc:22 streams `std::boolalpha` to `std::cout` after the first AST dump, so every later dump in the same process prints "true" or "false". A double prints its spelling, not the default `ostream` format (see the next line). Stream state is not modelled.
- PrinterLines.PrimaryBodyLines: a double literal prints its spelling. src/kunjs/printer.cc:699 streams the number with the default `ostream` format (six significant digits, trailing zeros dropped), so "1.50" prints as `1.5` and "3.14159265" as `3.14159`. Floating-point formatting is not modelled.
- ExpressionCompiler.Arithmetic: an operand that is not a number is not rejected. In "x + 1;" the identifier lowers to the i8* null, and the add is built anyway, typed by its left operand. LLVM's builder would assert on the mismatched operand types. ExpressionCompiler.ArithmeticWellTyped states exactly when the built instruction is well typed, and CompilerExamples.IdentifierOperandIsIllTyped shows "x + 1;" is not.
- ParseContinueStatement: uses the intended Lexical.NotEol, so "continue\nlabel;" is rejected, although the source as written accepts it (see Findings).
- ParseBreakStatement: uses the intended Lexical.NotEol, so "break\nlabel;" is rejected, although the source as written accepts it (see Findings).
- ParseReturnStatement: uses the intended Lexical.NotEol, so "return\nx;" is rejected, although the source as written accepts it (see Findings). Parser.Parse rejects that program too.
- ParseThrowStatement: uses the intended Lexical.NotEol, so "throw\nx;" is rejected, although the source as written accepts it (see Findings).
- ParseJumpLabel: uses the intended Lexical.NotEol, so a line break before the label aborts, although the source as written accepts it (see Findings).
- Lexical.PostfixOperator: uses the intended Lexical.NotEol, so "++" on the next line is not a postfix operator, although the source as written takes it as one (see Findings).
- ParseStatement: a statement of each kind is stated to be the result of its group of alternatives. ParseSimpleStatement, ParseIfOrLoopStatement and ParseLaterStatement state which rule gives it, so the link to the kind's own rule goes through two contracts.

## Findings

| source | as written | input that shows it | evidently intended | confidence | as-written member | corrected member |
|---|---|---|---|---|---|---|
| src/kunjs/grammar.cc:105-107 | `!eol` after `continue`, `break`, `return` (and `throw` at 119, and the postfix guard at 198) runs after the space skipper has already consumed every line terminator, so the guard never fails | "return\nx;" passes the guard and parses as `return x;` | a line terminator right after the keyword is rejected (no restricted production spans a line break) | not executed; high | Lexical.NotEolAsWrittenAlwaysHolds, Lexical.LineBreakPassesNotEolAsWritten | Lexical.NotEol, Lexical.NotEolRejectsLineBreak |
