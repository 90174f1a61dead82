/**
 * Reference semantics of the recursive-descent parser of typescript/parser.ts.
 *
 * Each grammar rule is a function from the remaining token list to either an
 * error or the node it builds together with the tokens it leaves behind, so a
 * rule that consumes tokens with `shift()` corresponds to a function whose
 * result's `rest` is a suffix of its input. A `shift()` on an empty list yields
 * `undefined`; reading a field of it in the source raises a host TypeError,
 * modelled as `ReadOfUndefined`.
 */
module Grammar {
  import opened Wrappers
  import opened Ast

  /** `Raised(m)` is `throw new Error(m)`; `ReadOfUndefined` is the TypeError of `undefined.type`. */
  datatype ParseError = Raised(message: string) | ReadOfUndefined

  datatype Result<+T> = Ok(value: T) | Err(error: ParseError)

  /** A node and the tokens left after it. */
  datatype Parsed<+T> = Parsed(node: T, rest: seq<Token>)

  const ExpectedIdentifier := "Expected identifier"
  const ExpectedVariableAssignment := "Expected variable assignment"
  const ExpectedSemicolon := "Expected semicolon"
  const ExpectedColon := "Expected colon"
  const ExpectedCloseBraceOrComma := "Expected close brace or comma"
  const ExpectedCloseParen := "Expected close paren"

  /** The message for a token no primary expression can start with. */
  function UnexpectedToken(t: Token): (m: string)
    ensures |m| > 17 + |t.value| && m[..17] == "Unexpected token " && m[|m| - 1] == ')'
    ensures m[17..17 + |t.value|] == t.value && m[17 + |t.value|] == ' '
  {
    "Unexpected token " + t.value + " (" + KindName(t.kind) + ")"
  }

  /** The token `shift()` returns: the first one, or `undefined` on an empty list. */
  function First(ts: seq<Token>): (t: Option<Token>)
    ensures t.Some? <==> ts != []
    ensures t.Some? ==> t.value == ts[0]
  {
    if ts == [] then None else Some(ts[0])
  }

  /** The list `shift()` leaves: one token fewer, or still empty. */
  function Drop1(ts: seq<Token>): (rest: seq<Token>)
    ensures ts == [] ==> rest == []
    ensures ts != [] ==> ts == [ts[0]] + rest
  {
    if ts == [] then [] else ts[1..]
  }

  /** `rest` is what is left of `ts` after consuming some of its tokens from the front. */
  ghost predicate IsSuffix(rest: seq<Token>, ts: seq<Token>)
  {
    |rest| <= |ts| && rest == ts[|ts| - |rest|..]
  }

  lemma SuffixTransitive(a: seq<Token>, b: seq<Token>, c: seq<Token>)
    requires IsSuffix(a, b) && IsSuffix(b, c)
    ensures IsSuffix(a, c)
  {
    assert c[|c| - |b|..][|b| - |a|..] == c[|c| - |a|..];
  }

  lemma Drop1IsSuffix(ts: seq<Token>)
    ensures IsSuffix(Drop1(ts), ts)
  {
  }

  /** The result `r` obtained from `mid` also consumes from the front of `ts`. */
  lemma ConsumesFrom<T>(r: Result<Parsed<T>>, mid: seq<Token>, ts: seq<Token>)
    requires Consumes(r, mid) && IsSuffix(mid, ts)
    ensures Consumes(r, ts)
  {
    if r.Ok? { SuffixTransitive(r.value.rest, mid, ts); }
  }

  /** `r`, when it succeeds, consumed tokens only from the front of `ts`. */
  ghost predicate Consumes<T>(r: Result<Parsed<T>>, ts: seq<Token>)
  {
    r.Ok? ==> IsSuffix(r.value.rest, ts)
  }

  /** `r`, when it succeeds, consumed at least one token of `ts`. */
  ghost predicate Advances<T>(r: Result<Parsed<T>>, ts: seq<Token>)
  {
    r.Ok? ==> |r.value.rest| < |ts|
  }

  /** `expect`: an error only when a token is present and of another kind. */
  function Expect(token: Option<Token>, kind: TokenType, error: string): (r: Result<bool>)
    ensures r.Err? <==> token.Some? && token.value.kind != kind
    ensures r.Err? ==> r.error == Raised(error)
    ensures r.Ok? ==> r.value
  {
    if token.Some? && token.value.kind != kind then Err(Raised(error)) else Ok(true)
  }

  /** The test of the `currentTokenIsAdditive` getter, on a present token. */
  predicate IsAdditive(t: Token)
  {
    t.kind == BinaryOperator && (t.value == "+" || t.value == "-")
  }

  /** The test of the `currentTokenIsMultiplicative` getter, on a present token. */
  predicate IsMultiplicative(t: Token)
  {
    t.kind == BinaryOperator && (t.value == "*" || t.value == "/" || t.value == "%")
  }

  /** `parse`: statements are parsed one after another until no token is left. */
  function ParseProgram(ts: seq<Token>): Result<Program>
  {
    ProgramLoop([], ts)
  }

  /** The loop of `parse`, with the statements parsed so far. */
  function ProgramLoop(body: seq<Stmt>, ts: seq<Token>): (r: Result<Program>)
    ensures r.Ok? ==> |body| <= |r.value.body| <= |body| + |ts| && r.value.body[..|body|] == body
    ensures r != Err(Raised(ExpectedCloseBraceOrComma))
    decreases |ts|
  {
    if ts == [] then Ok(Program(body))
    else
      match ParseStmt(ts)
      case Err(e) => Err(e)
      case Ok(Parsed(stmt, rest)) => ProgramLoop(body + [stmt], rest)
  }

  /** `parseStmt`: a declaration after `let`/`const`, an expression otherwise. */
  function ParseStmt(ts: seq<Token>): (r: Result<Parsed<Stmt>>)
    ensures Consumes(r, ts) && Advances(r, ts)
    ensures r != Err(Raised(ExpectedCloseBraceOrComma))
  {
    if ts == [] then Err(ReadOfUndefined)
    else if ts[0].kind == Let || ts[0].kind == Const then ParseVarDeclaration(ts)
    else
      match ParseExpr(ts)
      case Err(e) => Err(e)
      case Ok(Parsed(e, rest)) => Ok(Parsed(ExprStmt(e), rest))
  }

  /** `parseVariableDeclaration`: `(let|const) identifier ;` or `(let|const) identifier = expr ;`. */
  function ParseVarDeclaration(ts: seq<Token>): (r: Result<Parsed<Stmt>>)
    ensures Consumes(r, ts) && Advances(r, ts)
    ensures r != Err(Raised(ExpectedCloseBraceOrComma))
  {
    if ts == [] then Err(ReadOfUndefined)
    else
      var isConst := ts[0].kind == Const;
      var identifier := First(ts[1..]);
      var afterIdentifier := Drop1(ts[1..]);
      match Expect(identifier, TokenType.Identifier, ExpectedIdentifier)
      case Err(e) => Err(e)
      case Ok(_) =>
        var next := First(afterIdentifier);
        var afterNext := Drop1(afterIdentifier);
        if next.Some? && next.value.kind == Semicolon then
          match identifier
          case None => Err(ReadOfUndefined)
          case Some(id) => Ok(Parsed(VarDeclaration(id.value, isConst, None), afterNext))
        else if next.None? then Err(ReadOfUndefined)
        else if next.value.kind != Equals then Err(Raised(ExpectedVariableAssignment))
        else
          match ParseExpr(afterNext)
          case Err(e) => Err(e)
          case Ok(Parsed(value, rest)) =>
            match identifier
            case None => Err(ReadOfUndefined)
            case Some(id) =>
              match Expect(First(rest), Semicolon, ExpectedSemicolon)
              case Err(e) => Err(e)
              case Ok(_) => Ok(Parsed(VarDeclaration(id.value, isConst, Some(value)), Drop1(rest)))
  }

  // The expression rules call each other; every one of them is ranked so that
  // a call on the same token list goes to a rule of lower rank.

  /** `parseExpr`. */
  function ParseExpr(ts: seq<Token>): (r: Result<Parsed<Expr>>)
    ensures Consumes(r, ts) && (ts != [] ==> Advances(r, ts))
    ensures r != Err(Raised(ExpectedCloseBraceOrComma))
    decreases |ts|, 7
  {
    ParseAssignment(ts)
  }

  /** `parseAssignmentExpr`: `left = value` with `value` parsed again as an assignment, then `;`. */
  function ParseAssignment(ts: seq<Token>): (r: Result<Parsed<Expr>>)
    ensures Consumes(r, ts) && (ts != [] ==> Advances(r, ts))
    ensures r != Err(Raised(ExpectedCloseBraceOrComma))
    decreases |ts|, 6
  {
    match ParseObject(ts)
    case Err(e) => Err(e)
    case Ok(Parsed(left, rest)) =>
      if rest != [] && rest[0].kind == Equals then
        match ParseAssignment(rest[1..])
        case Err(e) => Err(e)
        case Ok(Parsed(value, rest')) =>
          match Expect(First(rest'), Semicolon, ExpectedSemicolon)
          case Err(e) => Err(e)
          case Ok(_) =>
            Drop1IsSuffix(rest');
            Drop1IsSuffix(rest);
            SuffixTransitive(Drop1(rest'), rest', rest[1..]);
            SuffixTransitive(Drop1(rest'), rest[1..], rest);
            SuffixTransitive(Drop1(rest'), rest, ts);
            Ok(Parsed(AssignmentExpr(left, value), Drop1(rest')))
      else Ok(Parsed(left, rest))
  }

  /**
   * `parseObjectExpr`: an additive expression unless the current token is `{`.
   * With no current token at all the source also takes the object branch.
   */
  function ParseObject(ts: seq<Token>): (r: Result<Parsed<Expr>>)
    ensures Consumes(r, ts) && (ts != [] ==> Advances(r, ts))
    ensures r != Err(Raised(ExpectedCloseBraceOrComma))
    decreases |ts|, 5
  {
    if ts != [] && ts[0].kind != OpenBrace then ParseAdditive(ts)
    else ObjectLoop([], Drop1(ts))
  }

  /** The property loop of `parseObjectExpr`, with the properties parsed so far. */
  function ObjectLoop(props: seq<Property>, ts: seq<Token>): (r: Result<Parsed<Expr>>)
    ensures Consumes(r, ts)
    ensures r != Err(Raised(ExpectedCloseBraceOrComma))
    decreases |ts|, 4
  {
    if ts != [] && ts[0].kind != CloseBrace then
      match ParseProperty(ts)
      case Err(e) => Err(e)
      case Ok(Parsed(p, rest)) =>
        var r := ObjectLoop(props + [p], rest);
        ConsumesFrom(r, rest, ts);
        r
    else
      var done := Ok(Parsed(ObjectLiteral(props), Drop1(ts)));
      match First(ts)
      case Some(end) =>
        if end.kind != CloseBrace && end.kind != Comma then Err(Raised(ExpectedCloseBraceOrComma)) else done
      case None => done
  }

  /**
   * One pass of that loop: a key, then `,` or `}` for a shorthand property, or
   * `:` and a value followed by one more token, which is consumed whatever it is.
   */
  function ParseProperty(ts: seq<Token>): (r: Result<Parsed<Property>>)
    requires ts != []
    ensures Consumes(r, ts) && Advances(r, ts)
    ensures r != Err(Raised(ExpectedCloseBraceOrComma))
    decreases |ts|, 3
  {
    var key := ts[0];
    match Expect(Some(key), TokenType.Identifier, ExpectedIdentifier)
    case Err(e) => Err(e)
    case Ok(_) =>
      var next := First(ts[1..]);
      var afterNext := Drop1(ts[1..]);
      if next.Some? && (next.value.kind == Comma || next.value.kind == CloseBrace) then
        Drop1IsSuffix(ts);
        Drop1IsSuffix(ts[1..]);
        SuffixTransitive(afterNext, ts[1..], ts);
        Ok(Parsed(Property(key.value, None), afterNext))
      else
        match Expect(next, Colon, ExpectedColon)
        case Err(e) => Err(e)
        case Ok(_) =>
          match ParseExpr(afterNext)
          case Err(e) => Err(e)
          case Ok(Parsed(value, rest)) =>
            Drop1IsSuffix(ts);
            Drop1IsSuffix(ts[1..]);
            Drop1IsSuffix(rest);
            SuffixTransitive(afterNext, ts[1..], ts);
            SuffixTransitive(rest, afterNext, ts);
            SuffixTransitive(Drop1(rest), rest, ts);
            Ok(Parsed(Property(key.value, Some(value)), Drop1(rest)))
  }

  /** `parseAdditiveExpr`. */
  function ParseAdditive(ts: seq<Token>): (r: Result<Parsed<Expr>>)
    ensures Consumes(r, ts) && Advances(r, ts)
    ensures r != Err(Raised(ExpectedCloseBraceOrComma))
    decreases |ts|, 3
  {
    match ParseMultiplicative(ts)
    case Err(e) => Err(e)
    case Ok(Parsed(left, rest)) => AdditiveLoop(left, rest)
  }

  /** The loop of `parseAdditiveExpr`: `left` is the expression built so far. */
  function AdditiveLoop(left: Expr, ts: seq<Token>): (r: Result<Parsed<Expr>>)
    ensures Consumes(r, ts)
    ensures r != Err(Raised(ExpectedCloseBraceOrComma))
    decreases |ts|, 0
  {
    if ts != [] && IsAdditive(ts[0]) then
      var operand := ParseMultiplicative(ts[1..]);
      match operand
      case Err(e) => Err(e)
      case Ok(Parsed(right, rest)) =>
        var r := AdditiveLoop(BinaryExpr(ts[0].value, left, right), rest);
        SuffixTransitive(rest, ts[1..], ts);
        ConsumesFrom(r, rest, ts);
        r
    else Ok(Parsed(left, ts))
  }

  /** `parseMultiplicativeExpr`. */
  function ParseMultiplicative(ts: seq<Token>): (r: Result<Parsed<Expr>>)
    ensures Consumes(r, ts) && Advances(r, ts)
    ensures r != Err(Raised(ExpectedCloseBraceOrComma))
    decreases |ts|, 2
  {
    match ParsePrimary(ts)
    case Err(e) => Err(e)
    case Ok(Parsed(left, rest)) => MultiplicativeLoop(left, rest)
  }

  /** The loop of `parseMultiplicativeExpr`: `left` is the expression built so far. */
  function MultiplicativeLoop(left: Expr, ts: seq<Token>): (r: Result<Parsed<Expr>>)
    ensures Consumes(r, ts)
    ensures r != Err(Raised(ExpectedCloseBraceOrComma))
    decreases |ts|, 0
  {
    if ts != [] && IsMultiplicative(ts[0]) then
      match ParsePrimary(ts[1..])
      case Err(e) => Err(e)
      case Ok(Parsed(right, rest)) => MultiplicativeLoop(BinaryExpr(ts[0].value, left, right), rest)
    else Ok(Parsed(left, ts))
  }

  /** `handleParen`: the expression after `(`, then a `)` (an absent token passes). */
  function HandleParen(ts: seq<Token>): (r: Result<Parsed<Expr>>)
    ensures Consumes(r, ts) && (ts != [] ==> Advances(r, ts))
    ensures r != Err(Raised(ExpectedCloseBraceOrComma))
    decreases |ts|, 8
  {
    match ParseExpr(ts)
    case Err(e) => Err(e)
    case Ok(Parsed(expr, rest)) =>
      match Expect(First(rest), CloseParen, ExpectedCloseParen)
      case Err(e) => Err(e)
      case Ok(_) =>
        Drop1IsSuffix(rest);
        SuffixTransitive(Drop1(rest), rest, ts);
        Ok(Parsed(expr, Drop1(rest)))
  }

  /** `parsePrimaryExpr`: one token decides; `(` goes on to `handleParen`. */
  function ParsePrimary(ts: seq<Token>): (r: Result<Parsed<Expr>>)
    ensures Consumes(r, ts) && Advances(r, ts)
    ensures r != Err(Raised(ExpectedCloseBraceOrComma))
    decreases |ts|, 1
  {
    if ts == [] then Err(ReadOfUndefined)
    else
      var token := ts[0];
      match token.kind
      case Number => Ok(Parsed(NumericLiteral(token.value), ts[1..]))
      case Identifier => Ok(Parsed(Expr.Identifier(token.value), ts[1..]))
      case Null => Ok(Parsed(NullLiteral, ts[1..]))
      case OpenParen => HandleParen(ts[1..])
      case _ => Err(Raised(UnexpectedToken(token)))
  }
}
