/**
 * The lexical layer of the kunjs grammar (src/kunjs/grammar.cc:187-269):
 * the space skipper, literal tokens, identifiers and reserved words, the
 * operator alternatives of each expression level, and the literals.
 *
 * Every token parser first drops leading white space, as Spirit's
 * `ascii::space` skipper does before each primitive, and then matches
 * contiguous characters.  A token function returns the rest of the input
 * after the token; `None` is a soft failure that lets an enclosing
 * alternative try its next branch.
 */
module Lexical {
  import opened Wrappers
  import opened Ast

  // ---------------------------------------------------------------- characters

  /** `ascii::space`: the characters the skipper drops. */
  predicate IsSpace(c: char) {
    c == ' ' || c == '\t' || c == '\n' || c == '\U{B}' || c == '\U{C}' || c == '\r'
  }

  /** White space that is not a line terminator. */
  predicate IsBlank(c: char) {
    c == ' ' || c == '\t' || c == '\U{B}' || c == '\U{C}'
  }

  predicate IsAlpha(c: char) { ('a' <= c <= 'z') || ('A' <= c <= 'Z') }
  predicate IsDigit(c: char) { '0' <= c <= '9' }
  predicate IsAlnum(c: char) { IsAlpha(c) || IsDigit(c) }

  /** identifier_start = alpha | '$' | '_' */
  predicate IsIdentifierStart(c: char) { IsAlpha(c) || c == '$' || c == '_' }

  /** The shape identifier_name accepts: a start character, then alphanumerics. */
  predicate IsIdentifierName(name: string) {
    |name| > 0 && IsIdentifierStart(name[0]) && forall i :: 1 <= i < |name| ==> IsAlnum(name[i])
  }

  // ---------------------------------------------------------------- skipping

  /** The skipper: drops every leading white-space character. */
  function SkipSpace(s: string): (r: string)
    ensures |r| <= |s|
    ensures r == [] || !IsSpace(r[0])
  {
    if s != [] && IsSpace(s[0]) then SkipSpace(s[1..]) else s
  }

  /** The skipper drops white space and nothing else: what is left is a suffix of the input. */
  lemma {:induction false} SkipSpaceDropsOnlySpace(s: string)
    ensures var r := SkipSpace(s);
            r == s[|s| - |r|..] && forall i :: 0 <= i < |s| - |r| ==> IsSpace(s[i])
    decreases |s|
  {
    if s != [] && IsSpace(s[0]) {
      SkipSpaceDropsOnlySpace(s[1..]);
      var r := SkipSpace(s);
      assert s[1..][|s| - 1 - |r|..] == s[|s| - |r|..];
      forall i | 1 <= i < |s| - |r|
        ensures IsSpace(s[i])
      {
        assert s[1..][i - 1] == s[i];
      }
    }
  }

  /** Input holding nothing but white space. */
  predicate Blank(s: string) { SkipSpace(s) == [] }

  /** Drops leading white space other than line terminators. */
  function SkipBlank(s: string): (r: string)
    ensures |r| <= |s|
    ensures r == [] || !IsBlank(r[0])
  {
    if s != [] && IsBlank(s[0]) then SkipBlank(s[1..]) else s
  }

  /** SkipBlank drops blanks and nothing else: what is left is a suffix of the input. */
  lemma {:induction false} SkipBlankDropsOnlyBlanks(s: string)
    ensures var r := SkipBlank(s);
            r == s[|s| - |r|..] && forall i :: 0 <= i < |s| - |r| ==> IsBlank(s[i])
    decreases |s|
  {
    if s != [] && IsBlank(s[0]) {
      SkipBlankDropsOnlyBlanks(s[1..]);
      var r := SkipBlank(s);
      assert s[1..][|s| - 1 - |r|..] == s[|s| - |r|..];
      forall i | 1 <= i < |s| - |r|
        ensures IsBlank(s[i])
      {
        assert s[1..][i - 1] == s[i];
      }
    }
  }

  // ---------------------------------------------------------------- tokens

  /** `lit(token)`, `string(token)` and `char_(c)` under the skipper. */
  function Lit(s: string, token: string): (r: Option<string>)
    requires token != []
    ensures r.Some? <==> token <= SkipSpace(s)
    ensures r.Some? ==> SkipSpace(s) == token + r.value
    ensures r.Some? ==> |r.value| < |s|
    ensures Blank(s) ==> r.None?
  {
    var t := SkipSpace(s);
    if token <= t then Some(t[|token|..]) else None
  }

  /** Length of the longest prefix of `t` made of characters satisfying IsAlnum. */
  function AlnumRun(t: string): (n: nat)
    ensures n <= |t|
    ensures forall i :: 0 <= i < n ==> IsAlnum(t[i])
    ensures n == |t| || !IsAlnum(t[n])
  {
    if t != [] && IsAlnum(t[0]) then 1 + AlnumRun(t[1..]) else 0
  }

  /** Length of the longest prefix of `t` made of decimal digits. */
  function DigitRun(t: string): (n: nat)
    ensures n <= |t|
    ensures forall i :: 0 <= i < n ==> IsDigit(t[i])
    ensures n == |t| || !IsDigit(t[n])
  {
    if t != [] && IsDigit(t[0]) then 1 + DigitRun(t[1..]) else 0
  }

  /** identifier_name = identifier_start >> *alnum: the name and the rest. */
  function IdentifierName(s: string): (r: Option<(string, string)>)
    ensures r.None? <==> (SkipSpace(s) == [] || !IsIdentifierStart(SkipSpace(s)[0]))
    ensures r.Some? ==> IsIdentifierName(r.value.0) && SkipSpace(s) == r.value.0 + r.value.1
    ensures r.Some? ==> r.value.1 == [] || !IsAlnum(r.value.1[0])
    ensures r.Some? ==> |r.value.1| < |s|
    ensures Blank(s) ==> r.None?
  {
    var t := SkipSpace(s);
    if t != [] && IsIdentifierStart(t[0]) then
      var n := 1 + AlnumRun(t[1..]);
      Some((t[..n], t[n..]))
    else
      None
  }

  // ---------------------------------------------------------------- reserved words

  const Keywords: seq<string> :=
    ["break", "do", "case", "else", "catch", "finally", "continue",
     "for", "debugger", "function", "default", "if", "delete", "in",
     "instanceof", "new", "return", "switch", "this", "throw", "try",
     "typeof", "var", "void", "while", "with"]

  const FutureReservedWords: seq<string> :=
    ["class", "enum", "const", "export", "implements", "let",
     "interface", "package", "yield", "extends", "import",
     "private", "protected", "super", "public", "static"]

  /** `word >> !alnum` at the start of `t`: the word, not followed by a letter or digit. */
  predicate WordAt(t: string, word: string) {
    word <= t && (|t| == |word| || !IsAlnum(t[|word|]))
  }

  /** `words >> !alnum` for a symbol table `words`: some word of the table
      stands at the start of `t` as a whole word. */
  predicate AnyWordAt(t: string, words: seq<string>) {
    exists i :: 0 <= i < |words| && WordAt(t, words[i])
  }

  /**
   * reserved_word = keyword | future_reserved_word | "null" | "true" | "false".
   * Keywords and future reserved words need a word boundary; the three
   * literal words do not, so any name that merely starts with one of them
   * is reserved.
   */
  predicate ReservedWord(s: string) {
    var t := SkipSpace(s);
    AnyWordAt(t, Keywords) || AnyWordAt(t, FutureReservedWords)
    || "null" <= t || "true" <= t || "false" <= t
  }

  /** identifier = !reserved_word >> identifier_name */
  function IdentifierToken(s: string): (r: Option<(string, string)>)
    ensures r.Some? ==> IsIdentifierName(r.value.0) && SkipSpace(s) == r.value.0 + r.value.1
    ensures r.Some? <==> !ReservedWord(s) && IdentifierName(s).Some?
    ensures r.Some? ==> |r.value.1| < |s|
    ensures Blank(s) ==> r.None?
  {
    if ReservedWord(s) then None else IdentifierName(s)
  }

  // ---------------------------------------------------------------- operator alternatives

  /** An ordered alternative of string tokens: the first (non-empty) one the input starts with. */
  function FirstOf(s: string, ops: seq<string>): (r: Option<(string, string)>)
    ensures r.None? <==> forall i :: 0 <= i < |ops| ==> ops[i] == [] || !(ops[i] <= SkipSpace(s))
    ensures r.Some? ==> exists k :: 0 <= k < |ops| && ops[k] == r.value.0
                          && forall j :: 0 <= j < k ==> ops[j] == [] || !(ops[j] <= SkipSpace(s))
    ensures r.Some? ==> r.value.0 in ops
    ensures r.Some? ==> r.value.0 != [] && SkipSpace(s) == r.value.0 + r.value.1
    ensures r.Some? ==> |r.value.1| < |s|
    decreases |ops|
  {
    if |ops| == 0 then None
    else if ops[0] != [] && ops[0] <= SkipSpace(s) then Some((ops[0], SkipSpace(s)[|ops[0]|..]))
    else
      var r := FirstOf(s, ops[1..]);
      assert r.Some? ==> exists k :: 0 <= k < |ops[1..]| && ops[1..][k] == r.value.0
                          && forall j :: 0 <= j < k ==> ops[1..][j] == [] || !(ops[1..][j] <= SkipSpace(s));
      assert r.Some? ==> exists k :: 1 <= k < |ops| && ops[k] == r.value.0
                          && forall j :: 0 <= j < k ==> ops[j] == [] || !(ops[j] <= SkipSpace(s));
      r
  }

  const EqualityOperators: seq<string> := ["===", "!==", "==", "!="]
  const RelationalOperators: seq<string> := ["<=", ">=", "<", ">", "instanceof", "in"]
  const ShiftOperators: seq<string> := [">>>", "<<", ">>"]
  const AdditiveOperators: seq<string> := ["+", "-"]
  const MultiplicativeOperators: seq<string> := ["*", "/", "%"]
  const UnaryOperators: seq<string> := ["delete", "void", "typeof", "++", "--", "+", "-", "~", "!"]
  const PostfixOperators: seq<string> := ["++", "--"]
  /** The compound assignment operators; plain "=" is tried before them. */
  const CompoundAssignmentOperators: seq<string> :=
    ["*=", "/=", "%=", "+=", "-=", "<<=", ">>=", ">>>=", "&=", "^=", "|="]

  /** assignment_operator: `!lit("==") >> "="`, then the compound operators. */
  function AssignmentOperator(s: string): (r: Option<(string, string)>)
    ensures r.Some? ==> SkipSpace(s) == r.value.0 + r.value.1
    ensures r.Some? ==> r.value.0 == "=" || r.value.0 in CompoundAssignmentOperators
  {
    var t := SkipSpace(s);
    if !("==" <= t) && "=" <= t then Some(("=", t[1..]))
    else FirstOf(s, CompoundAssignmentOperators)
  }

  // ---------------------------------------------------------------- longest match

  /** `a` and `b` agree on every position of `a` from `k` on. */
  predicate AgreeFrom(a: string, b: string, k: nat)
    requires |a| <= |b|
    decreases |a| - k
  {
    k >= |a| || (a[k] == b[k] && AgreeFrom(a, b, k + 1))
  }

  /** `a` is a proper prefix of `b`, compared character by character. */
  predicate ProperPrefix(a: string, b: string) { |a| < |b| && AgreeFrom(a, b, 0) }

  predicate NotProperPrefixOfAny(op: string, later: seq<string>)
    decreases |later|
  {
    |later| == 0 || (!ProperPrefix(op, later[0]) && NotProperPrefixOfAny(op, later[1..]))
  }

  /** An alternative is ordered longest-first when no operator is a proper
      prefix of an operator listed after it. */
  predicate LongestFirst(ops: seq<string>)
    decreases |ops|
  {
    |ops| == 0 || (NotProperPrefixOfAny(ops[0], ops[1..]) && LongestFirst(ops[1..]))
  }

  lemma {:induction false} AgreeFromMeansEqualPrefix(a: string, b: string, k: nat)
    requires |a| <= |b| && k <= |a|
    ensures AgreeFrom(a, b, k) <==> a[k..] == b[k..|a|]
    decreases |a| - k
  {
    if k < |a| {
      AgreeFromMeansEqualPrefix(a, b, k + 1);
      assert a[k..] == [a[k]] + a[k + 1..];
      assert b[k..|a|] == [b[k]] + b[k + 1..|a|];
    }
  }

  lemma {:induction false} NotProperPrefixOfAnyAt(op: string, later: seq<string>, j: nat)
    requires NotProperPrefixOfAny(op, later) && j < |later|
    ensures !ProperPrefix(op, later[j])
    decreases |later|
  {
    if j > 0 {
      NotProperPrefixOfAnyAt(op, later[1..], j - 1);
    }
  }

  lemma {:induction false} LongestFirstAt(ops: seq<string>, i: nat, j: nat)
    requires LongestFirst(ops) && i < j < |ops|
    ensures !(|ops[i]| < |ops[j]| && ops[i] == ops[j][..|ops[i]|])
    decreases |ops|
  {
    if i == 0 {
      NotProperPrefixOfAnyAt(ops[0], ops[1..], j - 1);
      if |ops[0]| < |ops[j]| {
        AgreeFromMeansEqualPrefix(ops[0], ops[j], 0);
      }
    } else {
      LongestFirstAt(ops[1..], i - 1, j - 1);
    }
  }

  /** The choice of FirstOf is at least as long as every operator of the table the input starts with. */
  predicate LongestMatch(s: string, ops: seq<string>, r: Option<(string, string)>) {
    r.Some? ==> forall j :: 0 <= j < |ops| && ops[j] <= SkipSpace(s) ==> |ops[j]| <= |r.value.0|
  }

  /** On a longest-first table, the first alternative that matches is the longest one that matches. */
  lemma FirstOfIsLongest(s: string, ops: seq<string>)
    requires LongestFirst(ops)
    ensures LongestMatch(s, ops, FirstOf(s, ops))
  {
    var r := FirstOf(s, ops);
    var t := SkipSpace(s);
    if r.Some? {
      var k :| 0 <= k < |ops| && ops[k] == r.value.0 && forall j :: 0 <= j < k ==> ops[j] == [] || !(ops[j] <= t);
      forall j | 0 <= j < |ops| && ops[j] <= t
        ensures |ops[j]| <= |r.value.0|
      {
        if j > k && |ops[k]| < |ops[j]| {
          assert ops[k] == t[..|ops[k]|] == ops[j][..|ops[k]|];
          LongestFirstAt(ops, k, j);
        }
      }
    }
  }

  lemma EqualityOperatorsLongestFirst() ensures LongestFirst(EqualityOperators) {}
  lemma RelationalOperatorsLongestFirst() ensures LongestFirst(RelationalOperators) {}
  lemma ShiftOperatorsLongestFirst() ensures LongestFirst(ShiftOperators) {}
  lemma UnaryOperatorsLongestFirst() ensures LongestFirst(UnaryOperators) {}
  lemma CompoundAssignmentOperatorsLongestFirst() ensures LongestFirst(CompoundAssignmentOperators) {
    var tail := ["%=", "+=", "-=", "<<=", ">>=", ">>>=", "&=", "^=", "|="];
    CompoundAdditiveOperatorsLongestFirst();
    NoneStartsWithBlocksPrefix("/=", tail);
    LongestFirstCons("/=", tail);
    NoneStartsWithBlocksPrefix("*=", ["/="] + tail);
    LongestFirstCons("*=", ["/="] + tail);
    assert CompoundAssignmentOperators == ["*="] + (["/="] + tail);
  }

  lemma LongestFirstCons(op: string, later: seq<string>)
    requires NotProperPrefixOfAny(op, later) && LongestFirst(later)
    ensures LongestFirst([op] + later)
  {
    assert ([op] + later)[1..] == later;
  }

  lemma CompoundAdditiveOperatorsLongestFirst()
    ensures LongestFirst(["%=", "+=", "-=", "<<=", ">>=", ">>>=", "&=", "^=", "|="])
  {
    CompoundShiftOperatorsLongestFirst();
  }

  /** The compound operators from "-=" on: ">>=" and ">>>=" differ in their third character, so neither is a prefix of the other. */
  lemma CompoundShiftOperatorsLongestFirst() ensures LongestFirst(["-=", "<<=", ">>=", ">>>=", "&=", "^=", "|="]) {
    CompoundBitwiseOperatorsLongestFirst();
  }

  lemma CompoundBitwiseOperatorsLongestFirst() ensures LongestFirst([">>>=", "&=", "^=", "|="]) {}

  lemma AssignmentOperatorsLongestFirst() ensures LongestFirst(["="] + CompoundAssignmentOperators) {
    var ops := ["="] + CompoundAssignmentOperators;
    assert ops[1..] == CompoundAssignmentOperators;
    CompoundAssignmentOperatorsLongestFirst();
    CompoundOperatorsStartOtherwise();
    NoneStartsWithBlocksPrefix("=", CompoundAssignmentOperators);
  }

  /** An operator whose first character no later operator starts with is a prefix of none of them. */
  lemma {:induction false} NoneStartsWithBlocksPrefix(op: string, later: seq<string>)
    requires op != [] && NoneStartsWith(later, op[0])
    ensures NotProperPrefixOfAny(op, later)
    decreases |later|
  {
    if |later| > 0 {
      NoneStartsWithBlocksPrefix(op, later[1..]);
    }
  }

  /**
   * Every operator alternative of the expression grammar lists a longer
   * operator before its prefixes ("===" before "==", "<=" before "<",
   * ">>>" before ">>", "instanceof" before "in", "++" before "+"), so the
   * operator picked is always the longest one the input starts with.
   */
  lemma OperatorAlternativesPickLongest(s: string)
    ensures LongestMatch(s, EqualityOperators, FirstOf(s, EqualityOperators))
    ensures LongestMatch(s, RelationalOperators, FirstOf(s, RelationalOperators))
    ensures LongestMatch(s, ShiftOperators, FirstOf(s, ShiftOperators))
    ensures LongestMatch(s, UnaryOperators, FirstOf(s, UnaryOperators))
    ensures LongestMatch(s, PostfixOperators, FirstOf(s, PostfixOperators))
    ensures !("==" <= SkipSpace(s)) ==>
              LongestMatch(s, ["="] + CompoundAssignmentOperators, AssignmentOperator(s))
  {
    EqualityOperatorsLongestFirst();
    FirstOfIsLongest(s, EqualityOperators);
    RelationalOperatorsLongestFirst();
    FirstOfIsLongest(s, RelationalOperators);
    ShiftOperatorsLongestFirst();
    FirstOfIsLongest(s, ShiftOperators);
    UnaryOperatorsLongestFirst();
    FirstOfIsLongest(s, UnaryOperators);
    assert LongestFirst(PostfixOperators);
    FirstOfIsLongest(s, PostfixOperators);
    if !("==" <= SkipSpace(s)) {
      AssignmentOperatorsLongestFirst();
      FirstOfIsLongest(s, ["="] + CompoundAssignmentOperators);
      AssignmentOperatorIsFirstOf(s);
    }
  }

  lemma {:induction false} AssignmentOperatorIsFirstOf(s: string)
    requires !("==" <= SkipSpace(s))
    ensures AssignmentOperator(s) == FirstOf(s, ["="] + CompoundAssignmentOperators)
  {
    var ops := ["="] + CompoundAssignmentOperators;
    assert ops[1..] == CompoundAssignmentOperators;
  }

  /** None of the operators starts with character `c`. */
  predicate NoneStartsWith(ops: seq<string>, c: char)
    decreases |ops|
  {
    |ops| == 0 || ((ops[0] == [] || ops[0][0] != c) && NoneStartsWith(ops[1..], c))
  }

  lemma {:induction false} NoneStartsWithMeansNoMatch(s: string, ops: seq<string>)
    requires SkipSpace(s) != [] && NoneStartsWith(ops, SkipSpace(s)[0])
    ensures FirstOf(s, ops).None?
    decreases |ops|
  {
    if |ops| > 0 {
      NoneStartsWithMeansNoMatch(s, ops[1..]);
    }
  }

  lemma CompoundOperatorsStartOtherwise() ensures NoneStartsWith(CompoundAssignmentOperators, '=') {}

  /** `!lit("==") >> "="`: an input that starts with "==" has no assignment operator. */
  lemma AssignmentOperatorRejectsEquality(s: string)
    requires "==" <= SkipSpace(s)
    ensures AssignmentOperator(s).None?
  {
    CompoundOperatorsStartOtherwise();
    NoneStartsWithMeansNoMatch(s, CompoundAssignmentOperators);
  }

  // ---------------------------------------------------------------- reserved words

  /** A keyword or future reserved word standing as a whole word is never an identifier. */
  lemma ReservedWordsAreNotIdentifiers(s: string, word: string)
    requires word in Keywords || word in FutureReservedWords
    requires WordAt(SkipSpace(s), word)
    ensures IdentifierToken(s).None?
  {
  }

  /** "null", "true" and "false" are reserved with no boundary check: "nullable" is not an identifier. */
  lemma LiteralWordsBlockIdentifiers(s: string)
    requires "null" <= SkipSpace(s) || "true" <= SkipSpace(s) || "false" <= SkipSpace(s)
    ensures IdentifierToken(s).None?
  {
  }

  // ---------------------------------------------------------------- line terminators

  /** `eol` at the start of `t`: a carriage return or a line feed. */
  predicate StartsLine(t: string) { t != [] && (t[0] == '\n' || t[0] == '\r') }

  /**
   * `!eol` as grammar.cc writes it: eol is a primitive parser, so it first
   * lets the space skipper drop white space, line terminators included.
   */
  predicate NotEolAsWritten(s: string) { !StartsLine(SkipSpace(s)) }

  /**
   * `!eol` as ECMAScript's restricted productions intend it: no line
   * terminator between the keyword (or operand) and the next token.
   */
  predicate NotEol(s: string) { !StartsLine(SkipBlank(s)) }

  /** As written, `!eol` never fails: the skipper has already consumed every line terminator. */
  lemma NotEolAsWrittenAlwaysHolds(s: string)
    ensures NotEolAsWritten(s)
  {
  }

  /** A line break followed by a name passes the guard as written but not the intended one. */
  lemma LineBreakPassesNotEolAsWritten()
    ensures NotEolAsWritten("\nx") && !NotEol("\nx")
  {
  }

  /** The intended guard fails whenever only blanks stand before a line terminator. */
  lemma {:induction false} NotEolRejectsLineBreak(s: string, k: nat)
    requires k < |s| && (s[k] == '\n' || s[k] == '\r')
    requires forall i :: 0 <= i < k ==> IsBlank(s[i])
    ensures !NotEol(s)
    decreases k
  {
    if k > 0 {
      NotEolRejectsLineBreak(s[1..], k - 1);
    }
  }

  // ---------------------------------------------------------------- repeated prefixes

  /** `*unary_operator`: the operators and the rest of the input. */
  function UnaryOperatorList(s: string): (r: (seq<string>, string))
    ensures |r.1| <= |s|
    ensures forall i :: 0 <= i < |r.0| ==> r.0[i] in UnaryOperators
    ensures Blank(s) || FirstOf(s, UnaryOperators).None? ==> r == ([], s)
    ensures FirstOf(r.1, UnaryOperators).None?
    ensures FirstOf(s, UnaryOperators).Some? ==>
              var (op, rest) := FirstOf(s, UnaryOperators).value;
              r.0 != [] && r.0[0] == op && (r.0[1..], r.1) == UnaryOperatorList(rest)
    decreases |s|
  {
    match FirstOf(s, UnaryOperators)
    case None => ([], s)
    case Some((op, rest)) =>
      var (more, last) := UnaryOperatorList(rest);
      ([op] + more, last)
  }

  /** `*string("new")`: the "new" prefixes and the rest of the input. */
  function NewOperatorList(s: string): (r: (seq<string>, string))
    ensures |r.1| <= |s|
    ensures forall i :: 0 <= i < |r.0| ==> r.0[i] == "new"
    ensures Blank(s) || Lit(s, "new").None? ==> r == ([], s)
    ensures Lit(r.1, "new").None?
    ensures Lit(s, "new").Some? ==>
              r.0 != [] && (r.0[1..], r.1) == NewOperatorList(Lit(s, "new").value)
    decreases |s|
  {
    match Lit(s, "new")
    case None => ([], s)
    case Some(rest) =>
      var (more, last) := NewOperatorList(rest);
      (["new"] + more, last)
  }

  /** postfix `-(!eol >> ("++" | "--"))`: an operator only on the same line. */
  function PostfixOperator(s: string): (r: Option<(string, string)>)
    ensures r.Some? ==> NotEol(s) && r.value.0 in PostfixOperators && |r.value.1| < |s|
    ensures !NotEol(s) ==> r.None?
    ensures NotEol(s) ==> r == FirstOf(s, PostfixOperators)
  {
    if NotEol(s) then FirstOf(s, PostfixOperators) else None
  }

  // ---------------------------------------------------------------- literals

  function Digit(c: char): (d: nat)
    requires IsDigit(c)
    ensures d < 10
  {
    c as int - '0' as int
  }

  /** Value of a string of decimal digits. */
  function DecimalValue(digits: string): (n: nat)
    requires forall i :: 0 <= i < |digits| ==> IsDigit(digits[i])
  {
    if digits == [] then 0
    else 10 * DecimalValue(digits[..|digits| - 1]) + Digit(digits[|digits| - 1])
  }

  /** Length of an exponent part `e[+-]digits` at the start of `u`, 0 if there is none. */
  function ExponentLength(u: string): (n: nat)
    ensures n <= |u|
    ensures n > 0 ==> u[0] == 'e' || u[0] == 'E'
  {
    if u != [] && (u[0] == 'e' || u[0] == 'E') then
      var sign := if |u| > 1 && (u[1] == '+' || u[1] == '-') then 1 else 0;
      var d := DigitRun(u[1 + sign..]);
      if d > 0 then 1 + sign + d else 0
    else 0
  }

  const MaxInt32: int := 0x7fff_ffff

  /**
   * numeric_literal = double_ | int_, split by spelling: a literal with a
   * decimal point (a leading or a trailing one will do), optionally followed
   * by an exponent, is a double kept by its spelling; a plain digit string is
   * an int_, which must fit in 32 bits.  Spirit's default double_ would also
   * take a plain digit string, so int_ would never be reached; the compiler
   * tests rely on this split (test/compiler_test.cc:126-134, where "1+2;"
   * yields an integer constant).
   */
  function NumericLiteralToken(s: string): (r: Option<(Numeric, string)>)
    ensures r.Some? ==> |r.value.1| < |SkipSpace(s)|
    ensures r.Some? && r.value.0.DoubleNum? <==> DoubleLength(SkipSpace(s)) > 0
    ensures r.Some? && r.value.0.DoubleNum? ==>
              SkipSpace(s) == r.value.0.spelling + r.value.1 && '.' in r.value.0.spelling
              && |r.value.0.spelling| == DoubleLength(SkipSpace(s))
    ensures var t := SkipSpace(s); var w := DigitRun(t);
            r.Some? && r.value.0.IntNum? <==> w > 0 && !(w < |t| && t[w] == '.') && LeadingValue(t) <= MaxInt32
    ensures r.Some? && r.value.0.IntNum? ==>
              var t := SkipSpace(s); var w := DigitRun(t);
              r.value == (IntNum(LeadingValue(t)), t[w..]) && 0 <= r.value.0.value <= MaxInt32
  {
    var t := SkipSpace(s);
    var whole := DigitRun(t);
    var n := DoubleLength(t);
    if n > 0 then
      assert t[..n][whole] == '.';
      Some((DoubleNum(t[..n]), t[n..]))
    else if whole > 0 && LeadingValue(t) <= MaxInt32 then Some((IntNum(LeadingValue(t)), t[whole..]))
    else None
  }

  /** The value of the digit run at the start of `t`. */
  function LeadingValue(t: string): nat {
    DecimalValue(t[..DigitRun(t)])
  }

  /**
   * Length of the double spelling at the start of `t`: digits, a decimal
   * point with a digit on at least one side, more digits and an optional
   * exponent; 0 when `t` does not start with one.
   */
  function DoubleLength(t: string): (n: nat)
    ensures n <= |t|
    ensures var w := DigitRun(t);
            n > 0 <==> w < |t| && t[w] == '.' && (w > 0 || DigitRun(t[w + 1..]) > 0)
    ensures n > 0 ==> DigitRun(t) < n && t[DigitRun(t)] == '.'
  {
    var w := DigitRun(t);
    if w < |t| && t[w] == '.' && (w > 0 || DigitRun(t[w + 1..]) > 0) then
      var f := 1 + DigitRun(t[w + 1..]);
      w + f + ExponentLength(t[w + f..])
    else 0
  }


  /** Index of the first `quote` in `t`, or |t| when there is none. */
  function IndexOf(t: string, quote: char): (k: nat)
    ensures k <= |t|
    ensures forall i :: 0 <= i < k ==> t[i] != quote
    ensures k < |t| ==> t[k] == quote
  {
    if t == [] || t[0] == quote then 0 else 1 + IndexOf(t[1..], quote)
  }

  /** `quote >> *(~char_(quote)) >> quote`: the text between the quotes. */
  function QuotedText(s: string, quote: char): (r: Option<(string, string)>)
    ensures r.Some? ==> SkipSpace(s) == [quote] + r.value.0 + [quote] + r.value.1
    ensures r.Some? ==> forall i :: 0 <= i < |r.value.0| ==> r.value.0[i] != quote
    ensures r.Some? <==> SkipSpace(s) != [] && SkipSpace(s)[0] == quote && quote in SkipSpace(s)[1..]
  {
    var t := SkipSpace(s);
    if t != [] && t[0] == quote then
      var k := IndexOf(t[1..], quote);
      if k < |t[1..]| then
        assert t == [quote] + t[1..][..k] + [quote] + t[k + 2..];
        Some((t[1..][..k], t[k + 2..]))
      else None
    else None
  }

  /** literal = null_literal | bool_ | numeric_literal | string_literal */
  function LiteralToken(s: string): (r: Option<(Literal, string)>)
    ensures r.Some? ==> |r.value.1| < |SkipSpace(s)|
    ensures r.Some? && r.value.0.NullLiteral? <==> "null" <= SkipSpace(s)
    ensures "null" <= SkipSpace(s) ==> r == Some((NullLiteral, SkipSpace(s)[4..]))
    ensures !("null" <= SkipSpace(s)) && "true" <= SkipSpace(s) ==>
              r == Some((BoolLiteral(true), SkipSpace(s)[4..]))
    ensures !("null" <= SkipSpace(s)) && !("true" <= SkipSpace(s)) && "false" <= SkipSpace(s) ==>
              r == Some((BoolLiteral(false), SkipSpace(s)[5..]))
    ensures !("null" <= SkipSpace(s)) && !("true" <= SkipSpace(s)) && !("false" <= SkipSpace(s)) ==>
              && (NumericLiteralToken(s).Some? ==>
                    r == Some((NumericLiteral(NumericLiteralToken(s).value.0), NumericLiteralToken(s).value.1)))
              && (NumericLiteralToken(s).None? && QuotedText(s, '"').Some? ==>
                    r == Some((StringLiteral(QuotedText(s, '"').value.0), QuotedText(s, '"').value.1)))
              && (NumericLiteralToken(s).None? && QuotedText(s, '"').None? && QuotedText(s, '\'').Some? ==>
                    r == Some((StringLiteral(QuotedText(s, '\'').value.0), QuotedText(s, '\'').value.1)))
              && (r.None? <==> NumericLiteralToken(s).None? && QuotedText(s, '"').None? && QuotedText(s, '\'').None?)
  {
    var t := SkipSpace(s);
    if "null" <= t then Some((NullLiteral, t[4..]))
    else if "true" <= t then Some((BoolLiteral(true), t[4..]))
    else if "false" <= t then Some((BoolLiteral(false), t[5..]))
    else match NumericLiteralToken(s)
      case Some((n, rest)) => Some((NumericLiteral(n), rest))
      case None =>
        match QuotedText(s, '"')
        case Some((text, rest)) => Some((StringLiteral(text), rest))
        case None =>
          match QuotedText(s, '\'')
          case Some((text, rest)) => Some((StringLiteral(text), rest))
          case None => None
  }
}
