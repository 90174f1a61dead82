/**
 * Properties of the parser of typescript/parser.ts, proved about the
 * reference functions in `Grammar` (and so, through their contracts, about the
 * methods of `Parsing.Parser`).
 */
module GrammarProperties {
  import opened Wrappers
  import opened Ast
  import opened Grammar

  // ---------------------------------------------------------------------
  // parse: statements in source order
  // ---------------------------------------------------------------------

  /** `ts` is exactly the statements `ss`, parsed one after another from the front. */
  ghost predicate StatementsCover(ts: seq<Token>, ss: seq<Stmt>)
    decreases |ss|
  {
    if ss == [] then ts == []
    else
      ts != [] && ParseStmt(ts).Ok? && ParseStmt(ts).value.node == ss[0]
      && StatementsCover(ParseStmt(ts).value.rest, ss[1..])
  }

  lemma {:induction false} ProgramLoopCovers(body: seq<Stmt>, ts: seq<Token>, ss: seq<Stmt>)
    ensures ProgramLoop(body, ts) == Ok(Program(body + ss)) <==> StatementsCover(ts, ss)
    decreases |ts|
  {
    if ts == [] {
      assert body + ss == body <==> ss == [];
    } else if ParseStmt(ts).Ok? {
      var Parsed(s, rest) := ParseStmt(ts).value;
      if ProgramLoop(body, ts) == Ok(Program(body + ss)) {
        var out := ProgramLoop(body + [s], rest).value.body;
        assert out[..|body| + 1] == body + [s];
        assert ss != [] && ss[0] == s by {
          assert out == body + ss;
          assert (body + ss)[|body|] == s;
        }
        assert body + ss == (body + [s]) + ss[1..];
        ProgramLoopCovers(body + [s], rest, ss[1..]);
      }
      if StatementsCover(ts, ss) {
        assert body + ss == (body + [ss[0]]) + ss[1..];
        ProgramLoopCovers(body + [s], rest, ss[1..]);
      }
    } else {
      assert !StatementsCover(ts, ss);
    }
  }

  /**
   * `parse` succeeds with body `ss` exactly when the tokens are the statements
   * of `ss`, each parsed by `parseStmt` where the previous one stopped.
   */
  lemma ProgramIsStatementsInOrder(ts: seq<Token>, ss: seq<Stmt>)
    ensures ParseProgram(ts) == Ok(Program(ss)) <==> StatementsCover(ts, ss)
  {
    ProgramLoopCovers([], ts, ss);
    assert [] + ss == ss;
  }

  // ---------------------------------------------------------------------
  // parseVariableDeclaration
  // ---------------------------------------------------------------------

  predicate IsDeclarationStart(ts: seq<Token>)
  {
    ts != [] && (ts[0].kind == Let || ts[0].kind == Const)
  }

  /**
   * Every declaration that parses: its name is the identifier token after
   * `let`/`const`, it is constant exactly when the first token is `const`, it
   * has no value exactly when a `;` follows the name, and otherwise `=` follows
   * the name and the value is the expression parsed after it, closed by one
   * more token that is `;` or absent.
   */
  lemma DeclarationShape(ts: seq<Token>)
    requires IsDeclarationStart(ts) && ParseStmt(ts).Ok?
    ensures var Parsed(d, rest) := ParseStmt(ts).value;
      && |ts| >= 3
      && d == VarDeclaration(ts[1].value, ts[0].kind == Const, d.init)
      && ts[1].kind == TokenType.Identifier
      && (d.init.None? <==> ts[2].kind == Semicolon)
      && (d.init.None? ==> rest == ts[3..])
      && (d.init.Some? ==>
            && ts[2].kind == Equals
            && ParseExpr(ts[3..]).Ok?
            && ParseExpr(ts[3..]).value.node == d.init.value
            && var after := ParseExpr(ts[3..]).value.rest;
            && (after == [] || after[0].kind == Semicolon)
            && rest == Drop1(after))
  {
  }

  /** The error conditions of a declaration, token by token. */
  lemma DeclarationErrors(ts: seq<Token>)
    requires IsDeclarationStart(ts)
    ensures |ts| >= 2 && ts[1].kind != TokenType.Identifier ==>
              ParseStmt(ts) == Err(Raised(ExpectedIdentifier))
    ensures |ts| == 1 || (|ts| == 2 && ts[1].kind == TokenType.Identifier) ==>
              ParseStmt(ts) == Err(ReadOfUndefined)
    ensures |ts| >= 3 && ts[1].kind == TokenType.Identifier && ts[2].kind != Semicolon && ts[2].kind != Equals ==>
              ParseStmt(ts) == Err(Raised(ExpectedVariableAssignment))
    ensures |ts| >= 3 && ts[1].kind == TokenType.Identifier && ts[2].kind == Equals && ParseExpr(ts[3..]).Ok? ==>
              var after := ParseExpr(ts[3..]).value.rest;
              after != [] && after[0].kind != Semicolon ==> ParseStmt(ts) == Err(Raised(ExpectedSemicolon))
  {
  }

  /** `(let|const) x ;` declares `x` without a value and consumes exactly those three tokens. */
  lemma DeclarationWithoutValue(ts: seq<Token>)
    requires |ts| >= 3 && IsDeclarationStart(ts) && ts[1].kind == TokenType.Identifier && ts[2].kind == Semicolon
    ensures ParseStmt(ts) == Ok(Parsed(VarDeclaration(ts[1].value, ts[0].kind == Const, None), ts[3..]))
  {
    assert ts[1..][1..] == ts[2..];
    assert ts[2..][1..] == ts[3..];
  }

  /**
   * `(let|const) x = e` followed by `;`, or by nothing, declares `x` with value
   * `e` and consumes the `;` too.
   */
  lemma DeclarationWithValue(ts: seq<Token>)
    requires |ts| >= 3 && IsDeclarationStart(ts) && ts[1].kind == TokenType.Identifier && ts[2].kind == Equals
    requires ParseExpr(ts[3..]).Ok?
    requires var after := ParseExpr(ts[3..]).value.rest; after == [] || after[0].kind == Semicolon
    ensures var Parsed(e, after) := ParseExpr(ts[3..]).value;
      ParseStmt(ts) == Ok(Parsed(VarDeclaration(ts[1].value, ts[0].kind == Const, Some(e)), Drop1(after)))
  {
    assert ts[1..][1..] == ts[2..];
    assert ts[2..][1..] == ts[3..];
  }

  // ---------------------------------------------------------------------
  // parseAdditiveExpr / parseMultiplicativeExpr: left folds
  // ---------------------------------------------------------------------

  /** The two binary precedence levels. */
  datatype Level = Additive | Multiplicative

  /** The operators that keep a level's loop going. */
  predicate Continues(level: Level, t: Token)
  {
    match level
    case Additive => IsAdditive(t)
    case Multiplicative => IsMultiplicative(t)
  }

  /** The rule that parses each operand of a level. */
  function Operand(level: Level, ts: seq<Token>): Result<Parsed<Expr>>
  {
    match level
    case Additive => ParseMultiplicative(ts)
    case Multiplicative => ParsePrimary(ts)
  }

  /** A level's loop. */
  function Loop(level: Level, left: Expr, ts: seq<Token>): Result<Parsed<Expr>>
  {
    match level
    case Additive => AdditiveLoop(left, ts)
    case Multiplicative => MultiplicativeLoop(left, ts)
  }

  /** One operator and the operand to its right. */
  datatype Step = Step(op: string, operand: Expr)

  /** `left op1 e1 op2 e2 ...` grouped to the left: `((left op1 e1) op2 e2) ...`. */
  function FoldLeft(left: Expr, steps: seq<Step>): Expr
    decreases |steps|
  {
    if steps == [] then left
    else FoldLeft(BinaryExpr(steps[0].op, left, steps[0].operand), steps[1..])
  }

  /**
   * `ts` begins with the operator/operand pairs `steps` of `level`, each
   * operator one of the level's and each operand parsed by the next rule where
   * the operator stopped, and then `rest`, which does not start with one of
   * the level's operators.
   */
  ghost predicate Chain(level: Level, ts: seq<Token>, steps: seq<Step>, rest: seq<Token>)
    decreases |steps|
  {
    if steps == [] then rest == ts && !(ts != [] && Continues(level, ts[0]))
    else
      && ts != [] && Continues(level, ts[0]) && ts[0].value == steps[0].op
      && Operand(level, ts[1..]).Ok?
      && Operand(level, ts[1..]).value.node == steps[0].operand
      && Chain(level, Operand(level, ts[1..]).value.rest, steps[1..], rest)
  }

  /** A loop that succeeds has folded a chain of its level to the left. */
  lemma {:induction false} LoopIsLeftFold(level: Level, left: Expr, ts: seq<Token>) returns (steps: seq<Step>)
    requires Loop(level, left, ts).Ok?
    ensures Chain(level, ts, steps, Loop(level, left, ts).value.rest)
    ensures Loop(level, left, ts).value.node == FoldLeft(left, steps)
    decreases |ts|
  {
    if ts != [] && Continues(level, ts[0]) {
      var Parsed(right, rest) := Operand(level, ts[1..]).value;
      var more := LoopIsLeftFold(level, BinaryExpr(ts[0].value, left, right), rest);
      steps := [Step(ts[0].value, right)] + more;
      assert steps[1..] == more;
    } else {
      steps := [];
    }
  }

  /** Conversely, a chain of a level is what that level's loop folds. */
  lemma {:induction false} LeftFoldIsLoop(level: Level, left: Expr, ts: seq<Token>, steps: seq<Step>, rest: seq<Token>)
    requires Chain(level, ts, steps, rest)
    ensures Loop(level, left, ts) == Ok(Parsed(FoldLeft(left, steps), rest))
    decreases |steps|
  {
    if steps != [] {
      var Parsed(right, mid) := Operand(level, ts[1..]).value;
      LeftFoldIsLoop(level, BinaryExpr(ts[0].value, left, right), mid, steps[1..], rest);
    }
  }

  /** A loop returns its left side untouched exactly when no operator of its level follows. */
  lemma LoopStopsOnlyAtOtherTokens(level: Level, left: Expr, ts: seq<Token>)
    ensures Loop(level, left, ts) == Ok(Parsed(left, ts)) <==> !(ts != [] && Continues(level, ts[0]))
  {
    if ts != [] && Continues(level, ts[0]) && Operand(level, ts[1..]).Ok? {
      var Parsed(right, rest) := Operand(level, ts[1..]).value;
      assert |rest| < |ts|;
    }
  }

  /** `a - b - c` groups as `(a - b) - c`. */
  lemma SubtractionGroupsLeft(a: string, b: string, c: string)
    ensures var ts := [Name(a), Op("-"), Name(b), Op("-"), Name(c)];
      ParseAdditive(ts) == Ok(Parsed(BinaryExpr("-", BinaryExpr("-", Expr.Identifier(a), Expr.Identifier(b)), Expr.Identifier(c)), []))
  {
    var ts := [Name(a), Op("-"), Name(b), Op("-"), Name(c)];
    var ab := BinaryExpr("-", Expr.Identifier(a), Expr.Identifier(b));
    OperandIsAtom(ts);
    OperandIsAtom(ts[2..]);
    OperandIsAtom(ts[4..]);
    assert ts[1..][1..] == ts[2..] && ts[3..][1..] == ts[4..];
    assert AdditiveLoop(ab, ts[3..]) == Ok(Parsed(BinaryExpr("-", ab, Expr.Identifier(c)), [])) by {
      assert AdditiveLoop(BinaryExpr("-", ab, Expr.Identifier(c)), []) == Ok(Parsed(BinaryExpr("-", ab, Expr.Identifier(c)), []));
    }
  }

  predicate IsAtomToken(t: Token)
  {
    t.kind == TokenType.Number || t.kind == TokenType.Identifier || t.kind == TokenType.Null
  }

  /** The node of a literal or name token. */
  function AtomOf(t: Token): Expr
    requires IsAtomToken(t)
  {
    if t.kind == TokenType.Number then NumericLiteral(t.value)
    else if t.kind == TokenType.Identifier then Expr.Identifier(t.value)
    else NullLiteral
  }

  /**
   * A literal or name followed by something other than an operator of a
   * level is the whole operand of that level, and consumes one token.
   */
  lemma OperandIsAtom(ts: seq<Token>)
    requires ts != [] && IsAtomToken(ts[0])
    ensures ParsePrimary(ts) == Ok(Parsed(AtomOf(ts[0]), ts[1..]))
    ensures !(|ts| > 1 && IsMultiplicative(ts[1])) ==>
              ParseMultiplicative(ts) == Ok(Parsed(AtomOf(ts[0]), ts[1..]))
    ensures !(|ts| > 1 && ts[1].kind == BinaryOperator) ==>
              ParseAdditive(ts) == Ok(Parsed(AtomOf(ts[0]), ts[1..]))
              && ParseObject(ts) == Ok(Parsed(AtomOf(ts[0]), ts[1..]))
    ensures !(|ts| > 1 && (ts[1].kind == BinaryOperator || ts[1].kind == Equals)) ==>
              ParseExpr(ts) == Ok(Parsed(AtomOf(ts[0]), ts[1..]))
  {
    AtomAtMultiplicative(ts);
    if !(|ts| > 1 && ts[1].kind == BinaryOperator) {
      AtomAtAdditive(ts);
      if !(|ts| > 1 && ts[1].kind == Equals) {
        assert ParseAssignment(ts) == Ok(Parsed(AtomOf(ts[0]), ts[1..]));
      }
    }
  }

  lemma AtomAtMultiplicative(ts: seq<Token>)
    requires ts != [] && IsAtomToken(ts[0])
    ensures ParsePrimary(ts) == Ok(Parsed(AtomOf(ts[0]), ts[1..]))
    ensures !(|ts| > 1 && IsMultiplicative(ts[1])) ==>
              ParseMultiplicative(ts) == Ok(Parsed(AtomOf(ts[0]), ts[1..]))
  {
    var atom := Ok(Parsed(AtomOf(ts[0]), ts[1..]));
    PrimaryOutcome(ts);
    if !(|ts| > 1 && IsMultiplicative(ts[1])) {
      assert MultiplicativeLoop(AtomOf(ts[0]), ts[1..]) == atom;
    }
  }

  lemma AtomAtAdditive(ts: seq<Token>)
    requires ts != [] && IsAtomToken(ts[0])
    requires !(|ts| > 1 && ts[1].kind == BinaryOperator)
    ensures ParseAdditive(ts) == Ok(Parsed(AtomOf(ts[0]), ts[1..]))
    ensures ParseObject(ts) == Ok(Parsed(AtomOf(ts[0]), ts[1..]))
  {
    var atom := Ok(Parsed(AtomOf(ts[0]), ts[1..]));
    AtomAtMultiplicative(ts);
    assert AdditiveLoop(AtomOf(ts[0]), ts[1..]) == atom;
    assert ParseAdditive(ts) == atom;
  }

  function Name(x: string): Token { Token(TokenType.Identifier, x) }
  function Op(o: string): Token { Token(BinaryOperator, o) }
  function Num(n: string): Token { Token(TokenType.Number, n) }
  function Punct(k: TokenType): Token { Token(k, "") }

  // ---------------------------------------------------------------------
  // Precedence
  // ---------------------------------------------------------------------

  predicate IsAtom(e: Expr)
  {
    e.Identifier? || e.NumericLiteral? || e.NullLiteral?
  }

  /** A left-grouped chain of `*`, `/`, `%` over atoms. */
  ghost predicate IsProductTree(e: Expr)
  {
    IsAtom(e)
    || (e.BinaryExpr? && (e.operator == "*" || e.operator == "/" || e.operator == "%")
        && IsProductTree(e.left) && IsAtom(e.right))
  }

  /** A left-grouped chain of `+`, `-` whose operands are product trees. */
  ghost predicate IsSumTree(e: Expr)
  {
    IsProductTree(e)
    || (e.BinaryExpr? && (e.operator == "+" || e.operator == "-")
        && IsSumTree(e.left) && IsProductTree(e.right))
  }

  ghost predicate ParenFree(ts: seq<Token>)
  {
    forall i | 0 <= i < |ts| :: ts[i].kind != OpenParen
  }

  lemma SuffixParenFree(rest: seq<Token>, ts: seq<Token>)
    requires ParenFree(ts) && IsSuffix(rest, ts)
    ensures ParenFree(rest)
  {
    forall i | 0 <= i < |rest| ensures rest[i].kind != OpenParen {
      assert rest[i] == ts[|ts| - |rest| + i];
    }
  }

  lemma {:induction false} ProductLoopTree(left: Expr, ts: seq<Token>)
    requires IsProductTree(left) && ParenFree(ts) && MultiplicativeLoop(left, ts).Ok?
    ensures IsProductTree(MultiplicativeLoop(left, ts).value.node)
    decreases |ts|
  {
    if ts != [] && IsMultiplicative(ts[0]) {
      SuffixParenFree(ts[1..], ts);
      assert ts[1..] != [] && ts[1..][0].kind != OpenParen;
      PrimaryOutcome(ts[1..]);
      var Parsed(right, rest) := ParsePrimary(ts[1..]).value;
      assert IsAtom(right);
      SuffixParenFree(rest, ts[1..]);
      ProductLoopTree(BinaryExpr(ts[0].value, left, right), rest);
    }
  }

  lemma ProductTree(ts: seq<Token>)
    requires ParenFree(ts) && ParseMultiplicative(ts).Ok?
    ensures IsProductTree(ParseMultiplicative(ts).value.node)
  {
    assert ts != [] && ts[0].kind != OpenParen;
    PrimaryOutcome(ts);
    var Parsed(left, rest) := ParsePrimary(ts).value;
    assert IsAtom(left) && rest == ts[1..];
    SuffixParenFree(rest, ts);
    ProductLoopTree(left, rest);
  }

  lemma {:induction false} SumLoopTree(left: Expr, ts: seq<Token>)
    requires IsSumTree(left) && ParenFree(ts) && AdditiveLoop(left, ts).Ok?
    ensures IsSumTree(AdditiveLoop(left, ts).value.node)
    decreases |ts|
  {
    if ts != [] && IsAdditive(ts[0]) {
      SuffixParenFree(ts[1..], ts);
      ProductTree(ts[1..]);
      var Parsed(right, rest) := ParseMultiplicative(ts[1..]).value;
      SuffixParenFree(rest, ts[1..]);
      SumLoopTree(BinaryExpr(ts[0].value, left, right), rest);
    }
  }

  /**
   * Without parentheses, `*`, `/` and `%` bind tighter than `+` and `-`, and
   * both levels group to the left: every additive node has a product tree on
   * its right, every multiplicative node an atom.
   */
  lemma Precedence(ts: seq<Token>)
    requires ParenFree(ts)
    ensures ParseMultiplicative(ts).Ok? ==> IsProductTree(ParseMultiplicative(ts).value.node)
    ensures ParseAdditive(ts).Ok? ==> IsSumTree(ParseAdditive(ts).value.node)
  {
    if ParseMultiplicative(ts).Ok? {
      ProductTree(ts);
      var Parsed(left, rest) := ParseMultiplicative(ts).value;
      SuffixParenFree(rest, ts);
      if AdditiveLoop(left, rest).Ok? {
        SumLoopTree(left, rest);
      }
    }
  }

  /** `x * y`, with no further `*`, `/` or `%`, is one product of two operands. */
  lemma ProductOfAtoms(ts: seq<Token>)
    requires |ts| >= 3 && IsAtomToken(ts[0]) && IsMultiplicative(ts[1]) && IsAtomToken(ts[2])
    requires !(|ts| > 3 && IsMultiplicative(ts[3]))
    ensures ParseMultiplicative(ts) == Ok(Parsed(BinaryExpr(ts[1].value, AtomOf(ts[0]), AtomOf(ts[2])), ts[3..]))
  {
    OperandIsAtom(ts);
    OperandIsAtom(ts[2..]);
    assert ts[1..][1..] == ts[2..] && ts[2..][1..] == ts[3..];
    var e := BinaryExpr(ts[1].value, AtomOf(ts[0]), AtomOf(ts[2]));
    assert MultiplicativeLoop(e, ts[3..]) == Ok(Parsed(e, ts[3..]));
  }

  /** `x + y * z`, followed by no operator, groups as `x + (y * z)`. */
  lemma ProductBindsTighter(ts: seq<Token>)
    requires |ts| >= 5 && IsAtomToken(ts[0]) && IsAdditive(ts[1])
    requires IsAtomToken(ts[2]) && IsMultiplicative(ts[3]) && IsAtomToken(ts[4])
    requires !(|ts| > 5 && (ts[5].kind == BinaryOperator || ts[5].kind == Equals))
    ensures ParseExpr(ts)
         == Ok(Parsed(BinaryExpr(ts[1].value, AtomOf(ts[0]), BinaryExpr(ts[3].value, AtomOf(ts[2]), AtomOf(ts[4]))), ts[5..]))
  {
    var product := BinaryExpr(ts[3].value, AtomOf(ts[2]), AtomOf(ts[4]));
    var sum := BinaryExpr(ts[1].value, AtomOf(ts[0]), product);
    assert !IsMultiplicative(ts[1]);
    OperandIsAtom(ts);
    ProductOfAtoms(ts[2..]);
    assert ts[1..][1..] == ts[2..] && ts[2..][3..] == ts[5..];
    assert ParseMultiplicative(ts[1..][1..]) == Ok(Parsed(product, ts[5..]));
    assert AdditiveLoop(sum, ts[5..]) == Ok(Parsed(sum, ts[5..]));
    assert AdditiveLoop(AtomOf(ts[0]), ts[1..]) == Ok(Parsed(sum, ts[5..]));
    assert ParseAdditive(ts) == Ok(Parsed(sum, ts[5..]));
    assert ParseObject(ts) == Ok(Parsed(sum, ts[5..]));
    assert ParseAssignment(ts) == Ok(Parsed(sum, ts[5..]));
  }

  /** A statement cannot start with a token that starts no expression. */
  lemma NoExpressionStart(ts: seq<Token>)
    requires ts != []
    requires ts[0].kind in {Semicolon, Equals, CloseBrace, Comma, Colon, BinaryOperator, CloseParen}
    ensures ParseExpr(ts) == Err(Raised(UnexpectedToken(ts[0])))
    ensures ParseStmt(ts) == Err(Raised(UnexpectedToken(ts[0])))
  {
    var e := Err(Raised(UnexpectedToken(ts[0])));
    PrimaryOutcome(ts);
    assert ParseMultiplicative(ts) == e;
    assert ParseAdditive(ts) == e;
    assert ParseObject(ts) == e;
    assert ParseAssignment(ts) == e;
  }

  /**
   * `1 + 2 * 3 ;` gives `1 + (2 * 3)`, leaving the `;`: an expression that
   * ends without consuming the next token leaves the `;` in place, so the
   * whole program then fails on it; the message names the `;` token by its
   * text `s`.
   */
  lemma ProductInsideSum(s: string)
    ensures var semi := Token(Semicolon, s);
      var ts := [Num("1"), Op("+"), Num("2"), Op("*"), Num("3"), semi];
      && ParseExpr(ts) == Ok(Parsed(BinaryExpr("+", NumericLiteral("1"), BinaryExpr("*", NumericLiteral("2"), NumericLiteral("3"))), [semi]))
      && ParseProgram(ts) == Err(Raised(UnexpectedToken(semi)))
  {
    var semi := Token(Semicolon, s);
    var ts := [Num("1"), Op("+"), Num("2"), Op("*"), Num("3"), semi];
    ProductBindsTighter(ts);
    assert ts[5..] == [semi];
    NoExpressionStart([semi]);
    var sum := BinaryExpr("+", NumericLiteral("1"), BinaryExpr("*", NumericLiteral("2"), NumericLiteral("3")));
    assert ParseStmt(ts) == Ok(Parsed(ExprStmt(sum), [semi]));
    assert ProgramLoop([ExprStmt(sum)], [semi]) == Err(Raised(UnexpectedToken(semi)));
    assert ProgramLoop([], ts) == ProgramLoop([] + [ExprStmt(sum)], [semi]);
  }

  /**
   * An assignment statement, unlike other expression statements, takes its
   * `;`: `x = v ;` is a whole program of one statement.
   */
  lemma AssignmentStatementTakesSemicolon(ts: seq<Token>)
    requires |ts| == 4 && IsAtomToken(ts[0]) && ts[1].kind == Equals && IsAtomToken(ts[2]) && ts[3].kind == Semicolon
    ensures ParseProgram(ts) == Ok(Program([ExprStmt(AssignmentExpr(AtomOf(ts[0]), AtomOf(ts[2])))]))
  {
    var s := ExprStmt(AssignmentExpr(AtomOf(ts[0]), AtomOf(ts[2])));
    OperandIsAtom(ts[2..]);
    assert ts[2..][1..] == ts[3..];
    OperandIsAtom(ts);
    assert ts[1..][1..] == ts[2..];
    assert ParseAssignment(ts) == Ok(Parsed(AssignmentExpr(AtomOf(ts[0]), AtomOf(ts[2])), []));
    assert ParseStmt(ts) == Ok(Parsed(s, []));
    assert ProgramLoop([s], []) == Ok(Program([s]));
    assert [] + [s] == [s];
    assert ProgramLoop([], ts) == ProgramLoop([s], []);
  }

  // ---------------------------------------------------------------------
  // parseAssignmentExpr
  // ---------------------------------------------------------------------

  /**
   * After the left side, `=` makes an assignment whose value is parsed again by
   * the assignment rule; exactly one token is then consumed and must be `;`
   * unless it is absent. Without `=` the left side is the result.
   */
  lemma AssignmentShape(ts: seq<Token>)
    requires ParseObject(ts).Ok?
    ensures var Parsed(left, rest) := ParseObject(ts).value;
      && (!(rest != [] && rest[0].kind == Equals) ==> ParseAssignment(ts) == ParseObject(ts))
      && (rest != [] && rest[0].kind == Equals && ParseAssignment(rest[1..]).Ok? ==>
            var Parsed(value, after) := ParseAssignment(rest[1..]).value;
            ParseAssignment(ts) ==
              if after != [] && after[0].kind != Semicolon then Err(Raised(ExpectedSemicolon))
              else Ok(Parsed(AssignmentExpr(left, value), Drop1(after))))
  {
  }

  /**
   * `x = y = z ;` with nothing after it nests to the right; the inner
   * assignment takes the `;`, and the outer `;` check passes on the absent token.
   */
  lemma ChainedAssignment(ts: seq<Token>)
    requires |ts| == 6 && IsAtomToken(ts[0]) && IsAtomToken(ts[2]) && IsAtomToken(ts[4])
    requires ts[1].kind == Equals && ts[3].kind == Equals && ts[5].kind == Semicolon
    ensures ParseExpr(ts) == Ok(Parsed(AssignmentExpr(AtomOf(ts[0]), AssignmentExpr(AtomOf(ts[2]), AtomOf(ts[4]))), []))
  {
    OperandIsAtom(ts[4..]);
    assert ts[4..][1..] == ts[5..];
    assert ParseAssignment(ts[4..]) == Ok(Parsed(AtomOf(ts[4]), ts[5..]));
    OperandIsAtom(ts[2..]);
    assert ts[2..][1..] == ts[3..];
    assert ts[3..][1..] == ts[4..];
    assert ParseAssignment(ts[2..]) == Ok(Parsed(AssignmentExpr(AtomOf(ts[2]), AtomOf(ts[4])), []));
    OperandIsAtom(ts);
    assert ts[1..][1..] == ts[2..];
  }

  /** `a = b = c ;` assigns `b = c` to `a`. */
  lemma AssignmentChainsRight(a: string, b: string, c: string)
    ensures var ts := [Name(a), Punct(Equals), Name(b), Punct(Equals), Name(c), Punct(Semicolon)];
      ParseExpr(ts) == Ok(Parsed(AssignmentExpr(Expr.Identifier(a), AssignmentExpr(Expr.Identifier(b), Expr.Identifier(c))), []))
  {
    ChainedAssignment([Name(a), Punct(Equals), Name(b), Punct(Equals), Name(c), Punct(Semicolon)]);
  }

  // ---------------------------------------------------------------------
  // parseObjectExpr
  // ---------------------------------------------------------------------

  /** The outcomes of one property: the key, then a separator or `:` and a value. */
  lemma PropertyOutcome(ts: seq<Token>)
    requires ts != []
    ensures ts[0].kind != TokenType.Identifier ==> ParseProperty(ts) == Err(Raised(ExpectedIdentifier))
    ensures ts[0].kind == TokenType.Identifier && |ts| >= 2 && (ts[1].kind == Comma || ts[1].kind == CloseBrace) ==>
              ParseProperty(ts) == Ok(Parsed(Property(ts[0].value, None), ts[2..]))
    ensures ts[0].kind == TokenType.Identifier && |ts| >= 2 && ts[1].kind !in {Comma, CloseBrace, Colon} ==>
              ParseProperty(ts) == Err(Raised(ExpectedColon))
    ensures ts[0].kind == TokenType.Identifier && |ts| >= 2 && ts[1].kind == Colon && ParseExpr(ts[2..]).Ok? ==>
              var Parsed(value, after) := ParseExpr(ts[2..]).value;
              ParseProperty(ts) == Ok(Parsed(Property(ts[0].value, Some(value)), Drop1(after)))
  {
    if |ts| >= 2 {
      assert ts[1..][1..] == ts[2..];
      assert First(ts[1..]) == Some(ts[1]);
    }
  }

  /**
   * An object literal keeps its properties in order, and every key is the text
   * of an identifier token of the literal.
   */
  lemma {:induction false} ObjectKeysAreIdentifiers(props: seq<Property>, ts: seq<Token>)
    requires ObjectLoop(props, ts).Ok?
    ensures ObjectLoop(props, ts).value.node.ObjectLiteral?
    ensures var ps := ObjectLoop(props, ts).value.node.properties;
      && |props| <= |ps| && ps[..|props|] == props
      && forall k | |props| <= k < |ps| :: KeyIsIdentifierIn(ps[k].key, ts)
    decreases |ts|
  {
    if ts != [] && ts[0].kind != CloseBrace {
      ObjectLoopStep(props, ts);
      var Parsed(p, rest) := ParseProperty(ts).value;
      ObjectKeysAreIdentifiers(props + [p], rest);
      KeysAfterStep(props, p, ObjectLoop(props, ts).value.node.properties, rest, ts);
    } else {
      assert ObjectLoop(props, ts).value.node == ObjectLiteral(props);
    }
  }

  /** One turn of the object loop: the next property is parsed and appended. */
  lemma ObjectLoopStep(props: seq<Property>, ts: seq<Token>)
    requires ts != [] && ts[0].kind != CloseBrace && ObjectLoop(props, ts).Ok?
    ensures ParseProperty(ts).Ok?
    ensures ParseProperty(ts).value.node.key == ts[0].value && ts[0].kind == TokenType.Identifier
    ensures ObjectLoop(props, ts)
         == ObjectLoop(props + [ParseProperty(ts).value.node], ParseProperty(ts).value.rest)
  {
  }

  lemma KeysAfterStep(props: seq<Property>, p: Property, ps: seq<Property>, rest: seq<Token>, ts: seq<Token>)
    requires ts != [] && ts[0].kind == TokenType.Identifier && p.key == ts[0].value && IsSuffix(rest, ts)
    requires |props + [p]| <= |ps| && ps[..|props + [p]|] == props + [p]
    requires forall k | |props + [p]| <= k < |ps| :: KeyIsIdentifierIn(ps[k].key, rest)
    ensures |props| <= |ps| && ps[..|props|] == props
    ensures forall k | |props| <= k < |ps| :: KeyIsIdentifierIn(ps[k].key, ts)
  {
    assert ps[..|props|] == (props + [p])[..|props|];
    assert ps[|props|] == (props + [p])[|props|];
    forall k | |props| <= k < |ps|
      ensures KeyIsIdentifierIn(ps[k].key, ts)
    {
      if k == |props| {
        assert ts[0].kind == TokenType.Identifier && ts[0].value == ps[k].key;
      } else {
        KeyInSuffix(ps[k].key, rest, ts);
      }
    }
  }

  /** `key` is the text of some identifier token of `ts`. */
  ghost predicate KeyIsIdentifierIn(key: string, ts: seq<Token>)
  {
    exists i | 0 <= i < |ts| :: ts[i].kind == TokenType.Identifier && ts[i].value == key
  }

  lemma KeyInSuffix(key: string, rest: seq<Token>, ts: seq<Token>)
    requires IsSuffix(rest, ts) && KeyIsIdentifierIn(key, rest)
    ensures KeyIsIdentifierIn(key, ts)
  {
    var i :| 0 <= i < |rest| && rest[i].kind == TokenType.Identifier && rest[i].value == key;
    assert rest[i] == ts[|ts| - |rest| + i];
  }

  /** `key: v` with `v` a literal or name and then `,` or `}` consumes all four tokens. */
  lemma ValuedProperty(ts: seq<Token>)
    requires |ts| >= 4 && ts[0].kind == TokenType.Identifier && ts[1].kind == Colon && IsAtomToken(ts[2])
    requires ts[3].kind == Comma || ts[3].kind == CloseBrace
    ensures ParseProperty(ts) == Ok(Parsed(Property(ts[0].value, Some(AtomOf(ts[2]))), ts[4..]))
  {
    PropertyOutcome(ts);
    OperandIsAtom(ts[2..]);
    assert ts[2..][1..] == ts[3..];
    assert ts[3..][1..] == ts[4..];
  }

  /** `key` then `,` or `}` is a shorthand property, and that token goes with it. */
  lemma ShorthandProperty(ts: seq<Token>)
    requires |ts| >= 2 && ts[0].kind == TokenType.Identifier
    requires ts[1].kind == Comma || ts[1].kind == CloseBrace
    ensures ParseProperty(ts) == Ok(Parsed(Property(ts[0].value, None), ts[2..]))
  {
    assert ts[1..][1..] == ts[2..];
  }

  /** A token other than `}` makes the loop parse one more property and go on after it. */
  lemma LoopTakesProperty(props: seq<Property>, ts: seq<Token>)
    requires ts != [] && ts[0].kind != CloseBrace && ParseProperty(ts).Ok?
    ensures var Parsed(p, rest) := ParseProperty(ts).value;
      ObjectLoop(props, ts) == ObjectLoop(props + [p], rest)
  {
  }

  /** An expression starting with `{` is the object loop's outcome, unless `=` follows the literal. */
  lemma ObjectExprIsLoop(ts: seq<Token>)
    requires ts != [] && ts[0].kind == OpenBrace && ObjectLoop([], ts[1..]).Ok?
    ensures var rest := ObjectLoop([], ts[1..]).value.rest;
      !(rest != [] && rest[0].kind == Equals) ==> ParseExpr(ts) == ObjectLoop([], ts[1..])
  {
    assert Drop1(ts) == ts[1..];
    assert ParseObject(ts) == ObjectLoop([], ts[1..]);
    assert ParseExpr(ts) == ParseAssignment(ts);
  }

  /** `{ k: v, m }` is an object with a valued property `k` and a shorthand property `m`. */
  lemma TwoPropertyObject(ts: seq<Token>)
    requires |ts| == 7 && ts[0].kind == OpenBrace && ts[1].kind == TokenType.Identifier && ts[2].kind == Colon
    requires IsAtomToken(ts[3]) && ts[4].kind == Comma && ts[5].kind == TokenType.Identifier && ts[6].kind == CloseBrace
    ensures ParseExpr(ts)
         == Ok(Parsed(ObjectLiteral([Property(ts[1].value, Some(AtomOf(ts[3]))), Property(ts[5].value, None)]), []))
  {
    var pa := Property(ts[1].value, Some(AtomOf(ts[3])));
    var pb := Property(ts[5].value, None);
    var done := Ok(Parsed(ObjectLiteral([pa, pb]), []));
    assert ObjectLoop([pa], ts[5..]) == done by {
      ShorthandProperty(ts[5..]);
      assert ts[5..][2..] == [];
      LoopTakesProperty([pa], ts[5..]);
      assert [pa] + [pb] == [pa, pb];
    }
    assert ObjectLoop([], ts[1..]) == done by {
      ValuedProperty(ts[1..]);
      assert ts[1..][4..] == ts[5..];
      LoopTakesProperty([], ts[1..]);
      assert [] + [pa] == [pa];
    }
    ObjectExprIsLoop(ts);
  }

  /** `{ a: 1, b }` has a valued property `a` and a shorthand property `b`. */
  lemma ValuedAndShorthandProperties(a: string, b: string)
    ensures var ts := [Punct(OpenBrace), Name(a), Punct(Colon), Num("1"), Punct(Comma), Name(b), Punct(CloseBrace)];
      ParseExpr(ts) == Ok(Parsed(ObjectLiteral([Property(a, Some(NumericLiteral("1"))), Property(b, None)]), []))
  {
    TwoPropertyObject([Punct(OpenBrace), Name(a), Punct(Colon), Num("1"), Punct(Comma), Name(b), Punct(CloseBrace)]);
  }

  /**
   * The loop takes `}` after a shorthand key as a separator and goes on, so
   * `{ k }` followed by a token that is neither `}` nor an identifier starts
   * another property and fails on it.
   */
  lemma ObjectFollowedByTokenFails(ts: seq<Token>)
    requires |ts| >= 4 && ts[0].kind == OpenBrace && ts[1].kind == TokenType.Identifier && ts[2].kind == CloseBrace
    requires ts[3].kind != CloseBrace && ts[3].kind != TokenType.Identifier
    ensures ParseExpr(ts) == Err(Raised(ExpectedIdentifier))
  {
    var p := Property(ts[1].value, None);
    ShorthandProperty(ts[1..]);
    assert ts[1..][2..] == ts[3..];
    PropertyOutcome(ts[3..]);
    assert ObjectLoop([p], ts[3..]) == Err(Raised(ExpectedIdentifier));
    assert [] + [p] == [p];
    assert ObjectLoop([], ts[1..]) == Err(Raised(ExpectedIdentifier));
    assert ParseObject(ts) == Err(Raised(ExpectedIdentifier));
  }

  /** `{ }` ends at its `}` in key position and leaves the next token alone. */
  lemma EmptyObjectLeavesNextToken(ts: seq<Token>)
    requires |ts| >= 2 && ts[0].kind == OpenBrace && ts[1].kind == CloseBrace
    requires |ts| == 2 || ts[2].kind != Equals
    ensures ParseExpr(ts) == Ok(Parsed(ObjectLiteral([]), ts[2..]))
  {
    assert ts[1..][1..] == ts[2..];
    assert ObjectLoop([], ts[1..]) == Ok(Parsed(ObjectLiteral([]), ts[2..]));
    ObjectExprIsLoop(ts);
  }

  /**
   * `{ k , }` ends at the `}` that follows the comma, in key position, and
   * leaves the next token alone.
   */
  lemma TrailingCommaObjectLeavesNextToken(ts: seq<Token>)
    requires |ts| >= 4 && ts[0].kind == OpenBrace && ts[1].kind == TokenType.Identifier
    requires ts[2].kind == Comma && ts[3].kind == CloseBrace
    requires |ts| == 4 || ts[4].kind != Equals
    ensures ParseExpr(ts) == Ok(Parsed(ObjectLiteral([Property(ts[1].value, None)]), ts[4..]))
  {
    var p := Property(ts[1].value, None);
    var done := Ok(Parsed(ObjectLiteral([p]), ts[4..]));
    assert ObjectLoop([], ts[1..]) == done by {
      ShorthandProperty(ts[1..]);
      assert ts[1..][2..] == ts[3..] && ts[3..][1..] == ts[4..];
      assert ObjectLoop([p], ts[3..]) == done;
      LoopTakesProperty([], ts[1..]);
      assert [] + [p] == [p];
    }
    ObjectExprIsLoop(ts);
  }

  /** So `let x = { k , } ;` is a whole program, unlike `let x = { k } ;`. */
  lemma TrailingCommaInitializer(ts: seq<Token>)
    requires |ts| == 8 && ts[0].kind == Let && ts[1].kind == TokenType.Identifier && ts[2].kind == Equals
    requires ts[3].kind == OpenBrace && ts[4].kind == TokenType.Identifier && ts[5].kind == Comma
    requires ts[6].kind == CloseBrace && ts[7].kind == Semicolon
    ensures ParseProgram(ts)
         == Ok(Program([VarDeclaration(ts[1].value, false, Some(ObjectLiteral([Property(ts[4].value, None)])))]))
  {
    var d := VarDeclaration(ts[1].value, false, Some(ObjectLiteral([Property(ts[4].value, None)])));
    assert ts[3..][1] == ts[4] && ts[3..][4..] == ts[7..];
    TrailingCommaObjectLeavesNextToken(ts[3..]);
    DeclarationWithValue(ts);
    assert ParseStmt(ts) == Ok(Parsed(d, []));
    assert ProgramLoop([d], []) == Ok(Program([d]));
    assert [] + [d] == [d];
    assert ProgramLoop([], ts) == ProgramLoop([d], []);
  }

  /**
   * An identifier after `{ k }` is read as one more key; `expect` lets the
   * missing `:` through, and the missing value is the empty object.
   */
  lemma IdentifierAfterObjectIsAKey(ts: seq<Token>)
    requires |ts| == 4 && ts[0].kind == OpenBrace && ts[1].kind == TokenType.Identifier && ts[2].kind == CloseBrace
    requires ts[3].kind == TokenType.Identifier
    ensures ParseExpr(ts)
         == Ok(Parsed(ObjectLiteral([Property(ts[1].value, None), Property(ts[3].value, Some(ObjectLiteral([])))]), []))
  {
    var p := Property(ts[1].value, None);
    var q := Property(ts[3].value, Some(ObjectLiteral([])));
    var done := Ok(Parsed(ObjectLiteral([p, q]), []));
    assert ObjectLoop([p], ts[3..]) == done by {
      assert ts[3..][1..] == [];
      NoTokensIsEmptyObject();
      assert ParseProperty(ts[3..]) == Ok(Parsed(q, []));
      LoopTakesProperty([p], ts[3..]);
      assert [p] + [q] == [p, q];
    }
    assert ObjectLoop([], ts[1..]) == done by {
      ShorthandProperty(ts[1..]);
      assert ts[1..][2..] == ts[3..];
      LoopTakesProperty([], ts[1..]);
      assert [] + [p] == [p];
    }
    ObjectExprIsLoop(ts);
  }

  /**
   * The token after a property's value is consumed whatever it is, so
   * `{ k: v ;` is a whole program: an object statement that took the `;`.
   */
  lemma ValuedPropertyTakesSemicolon(ts: seq<Token>)
    requires |ts| == 5 && ts[0].kind == OpenBrace && ts[1].kind == TokenType.Identifier && ts[2].kind == Colon
    requires IsAtomToken(ts[3]) && ts[4].kind == Semicolon
    ensures ParseProgram(ts) == Ok(Program([ExprStmt(ObjectLiteral([Property(ts[1].value, Some(AtomOf(ts[3])))]))]))
  {
    var p := Property(ts[1].value, Some(AtomOf(ts[3])));
    var o := ObjectLiteral([p]);
    var st := ExprStmt(o);
    assert ObjectLoop([], ts[1..]) == Ok(Parsed(o, [])) by {
      OperandIsAtom(ts[3..]);
      assert ts[1..][2..] == ts[3..] && ts[3..][1..] == ts[4..];
      PropertyOutcome(ts[1..]);
      assert ParseProperty(ts[1..]) == Ok(Parsed(p, []));
      LoopTakesProperty([], ts[1..]);
      assert [] + [p] == [p];
    }
    ObjectExprIsLoop(ts);
    assert ParseStmt(ts) == Ok(Parsed(st, []));
    assert ProgramLoop([st], []) == Ok(Program([st]));
    assert [] + [st] == [st];
    assert ProgramLoop([], ts) == ProgramLoop([st], []);
  }

  // ---------------------------------------------------------------------
  // parsePrimaryExpr and handleParen
  // ---------------------------------------------------------------------

  /**
   * A primary expression is decided by one token: a literal or name consumes
   * exactly that token, `(` goes on to a parenthesised expression, and any
   * other token, or none, is an error.
   */
  lemma PrimaryOutcome(ts: seq<Token>)
    ensures ts == [] ==> ParsePrimary(ts) == Err(ReadOfUndefined)
    ensures ts != [] && ts[0].kind == TokenType.Number ==> ParsePrimary(ts) == Ok(Parsed(NumericLiteral(ts[0].value), ts[1..]))
    ensures ts != [] && ts[0].kind == TokenType.Identifier ==> ParsePrimary(ts) == Ok(Parsed(Expr.Identifier(ts[0].value), ts[1..]))
    ensures ts != [] && ts[0].kind == TokenType.Null ==> ParsePrimary(ts) == Ok(Parsed(NullLiteral, ts[1..]))
    ensures ts != [] && ts[0].kind == OpenParen ==> ParsePrimary(ts) == HandleParen(ts[1..])
    ensures ts != [] && ts[0].kind !in {TokenType.Number, TokenType.Identifier, TokenType.Null, OpenParen} ==>
              ParsePrimary(ts) == Err(Raised(UnexpectedToken(ts[0])))
  {
    if ts != [] {
      match ts[0].kind
      case Number =>
      case Identifier =>
      case Null =>
      case OpenParen =>
      case _ =>
    }
  }

  /** A parenthesised expression must be followed by `)`, or by nothing at all. */
  lemma ParenOutcome(ts: seq<Token>)
    requires ParseExpr(ts).Ok?
    ensures var Parsed(e, after) := ParseExpr(ts).value;
      HandleParen(ts) ==
        if after != [] && after[0].kind != CloseParen then Err(Raised(ExpectedCloseParen))
        else Ok(Parsed(e, Drop1(after)))
  {
  }

  // ---------------------------------------------------------------------
  // Consequences of `expect` passing on an absent token
  // ---------------------------------------------------------------------

  /** An expression rule given no tokens yields an empty object literal. */
  lemma NoTokensIsEmptyObject()
    ensures ParseExpr([]) == Ok(Parsed(ObjectLiteral([]), []))
  {
  }

  /** So `let x =` with nothing after it declares `x` with an empty object as its value. */
  lemma DanglingInitializer(x: string)
    ensures ParseProgram([Punct(Let), Name(x), Punct(Equals)])
         == Ok(Program([VarDeclaration(x, false, Some(ObjectLiteral([])))]))
  {
    var ts := [Punct(Let), Name(x), Punct(Equals)];
    var d := VarDeclaration(x, false, Some(ObjectLiteral([])));
    assert ts[1..][1..] == [Punct(Equals)] && ts[1..][1..][1..] == [];
    NoTokensIsEmptyObject();
    assert ParseVarDeclaration(ts) == Ok(Parsed(d, []));
    assert ParseStmt(ts) == Ok(Parsed(d, []));
    assert ProgramLoop([d], []) == Ok(Program([d]));
    assert [] + [d] == [d];
    assert ProgramLoop([], ts) == ProgramLoop([d], []);
  }

  /** `let x = ;` is rejected at the `;`, named by its text `s`, where a primary expression was expected. */
  lemma MissingInitializer(x: string, s: string)
    ensures var semi := Token(Semicolon, s);
      ParseProgram([Punct(Let), Name(x), Punct(Equals), semi]) == Err(Raised(UnexpectedToken(semi)))
  {
    var semi := Token(Semicolon, s);
    var ts := [Punct(Let), Name(x), Punct(Equals), semi];
    var e := Err(Raised(UnexpectedToken(semi)));
    assert ts[1..][1..][1..] == [semi];
    NoExpressionStart([semi]);
    assert ParseVarDeclaration(ts) == e;
    assert ParseStmt(ts) == e;
  }
}
