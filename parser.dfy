/**
 * The `Parser` class of typescript/parser.ts.
 *
 * The parser keeps the token list in a field and consumes it from the front;
 * every grammar rule is a method that shifts tokens off that field. Each method
 * is proved against the reference function of the same rule in `Grammar`: the
 * node it returns, and the tokens it leaves, are those of the function applied
 * to the tokens it found. A thrown error becomes an `Err` result.
 */
module Parsing {
  import opened Wrappers
  import opened Ast
  import opened Grammar

  /** A method's outcome together with the tokens it left behind. */
  function WithRest<T>(r: Result<T>, rest: seq<Token>): Result<Parsed<T>>
  {
    match r
    case Ok(v) => Ok(Parsed(v, rest))
    case Err(e) => Err(e)
  }

  class Parser {
    /** The tokens still to parse. */
    var tokens: seq<Token>

    constructor ()
      ensures tokens == []
    {
      tokens := [];
    }

    /** `currentToken`: the first remaining token, `None` standing for `undefined`. */
    function CurrentToken(): (t: Option<Token>)
      reads this
      ensures t.Some? <==> tokens != []
      ensures t.Some? ==> t.value == tokens[0]
    {
      First(tokens)
    }

    /**
     * `currentTokenIsAdditive`. The source reads `.type` of the current token,
     * so it needs one; every caller tests the length first.
     */
    predicate CurrentTokenIsAdditive()
      reads this
      requires tokens != []
    {
      IsAdditive(tokens[0])
    }

    /** `currentTokenIsMultiplicative`, under the same condition. */
    predicate CurrentTokenIsMultiplicative()
      reads this
      requires tokens != []
    {
      IsMultiplicative(tokens[0])
    }

    /** `this.tokens.shift()`. */
    method Shift() returns (t: Option<Token>)
      modifies this
      ensures t == First(old(tokens)) && tokens == Drop1(old(tokens))
      ensures IsSuffix(tokens, old(tokens))
    {
      if tokens == [] {
        t := None;
      } else {
        t := Some(tokens[0]);
        tokens := tokens[1..];
      }
    }

    /** `parse`: the token list stands for `tokenize(src)`. */
    method Parse(src: seq<Token>) returns (r: Result<Program>)
      modifies this
      ensures r == ParseProgram(src)
      ensures r.Ok? ==> tokens == []
    {
      tokens := src;
      var body: seq<Stmt> := [];
      while |tokens| > 0
        invariant ProgramLoop(body, tokens) == ParseProgram(src)
        decreases |tokens|
      {
        var stmt := ParseStmt();
        if stmt.Err? {
          return Err(stmt.error);
        }
        body := body + [stmt.value];
      }
      return Ok(Program(body));
    }

    /** `parseVariableDeclaration`. */
    method ParseVariableDeclaration() returns (r: Result<Stmt>)
      modifies this
      ensures WithRest(r, tokens) == Grammar.ParseVarDeclaration(old(tokens))
      ensures IsSuffix(tokens, old(tokens))
    {
      var first := Shift();
      if first.None? {
        return Err(ReadOfUndefined);
      }
      var isConst := first.value.kind == Const;
      var identifier := Shift();
      SuffixTransitive(tokens, Drop1(old(tokens)), old(tokens));
      var ok := Expect(identifier, TokenType.Identifier, ExpectedIdentifier);
      if ok.Err? {
        return Err(ok.error);
      }
      var next := Shift();
      SuffixTransitive(tokens, Drop1(Drop1(old(tokens))), old(tokens));
      if next.Some? && next.value.kind == Semicolon {
        match identifier {
          case None => return Err(ReadOfUndefined);
          case Some(id) => return Ok(VarDeclaration(id.value, isConst, None));
        }
      }
      if next.None? {
        return Err(ReadOfUndefined);
      }
      if next.value.kind != Equals {
        return Err(Raised(ExpectedVariableAssignment));
      }
      ghost var beforeValue := tokens;
      var value := ParseExpr();
      SuffixTransitive(tokens, beforeValue, old(tokens));
      if value.Err? {
        return Err(value.error);
      }
      match identifier {
        case None => return Err(ReadOfUndefined);
        case Some(id) =>
          ghost var beforeEnd := tokens;
          var end := Shift();
          SuffixTransitive(tokens, beforeEnd, old(tokens));
          ok := Expect(end, Semicolon, ExpectedSemicolon);
          if ok.Err? {
            return Err(ok.error);
          }
          return Ok(VarDeclaration(id.value, isConst, Some(value.value)));
      }
    }

    /** `parseStmt`. */
    method ParseStmt() returns (r: Result<Stmt>)
      modifies this
      ensures WithRest(r, tokens) == Grammar.ParseStmt(old(tokens))
      ensures IsSuffix(tokens, old(tokens))
    {
      var current := CurrentToken();
      if current.None? {
        return Err(ReadOfUndefined);
      }
      if current.value.kind == Let || current.value.kind == Const {
        r := ParseVariableDeclaration();
      } else {
        var e := ParseExpr();
        r := if e.Err? then Err(e.error) else Ok(ExprStmt(e.value));
      }
    }

    /** `parseExpr`. */
    method ParseExpr() returns (r: Result<Expr>)
      modifies this
      ensures WithRest(r, tokens) == Grammar.ParseExpr(old(tokens))
      ensures IsSuffix(tokens, old(tokens))
      decreases |tokens|, 7
    {
      r := ParseAssignmentExpr();
    }

    /** `parseAssignmentExpr`. */
    method ParseAssignmentExpr() returns (r: Result<Expr>)
      modifies this
      ensures WithRest(r, tokens) == ParseAssignment(old(tokens))
      ensures IsSuffix(tokens, old(tokens))
      decreases |tokens|, 6
    {
      var left := ParseObjectExpr();
      if left.Err? {
        return left;
      }
      var current := CurrentToken();
      if current.Some? && current.value.kind == Equals {
        ghost var beforeEquals := tokens;
        var _ := Shift();
        SuffixTransitive(tokens, beforeEquals, old(tokens));
        ghost var beforeValue := tokens;
        var value := ParseAssignmentExpr();
        SuffixTransitive(tokens, beforeValue, old(tokens));
        if value.Err? {
          return value;
        }
        ghost var beforeEnd := tokens;
        var end := Shift();
        SuffixTransitive(tokens, beforeEnd, old(tokens));
        var ok := Expect(end, Semicolon, ExpectedSemicolon);
        if ok.Err? {
          return Err(ok.error);
        }
        return Ok(AssignmentExpr(left.value, value.value));
      }
      return left;
    }

    /** `parseObjectExpr`. */
    method ParseObjectExpr() returns (r: Result<Expr>)
      modifies this
      ensures WithRest(r, tokens) == ParseObject(old(tokens))
      ensures IsSuffix(tokens, old(tokens))
      decreases |tokens|, 5
    {
      var current := CurrentToken();
      if current.Some? && current.value.kind != OpenBrace {
        r := ParseAdditiveExpr();
        return;
      }
      var _ := Shift();
      var properties: seq<Property> := [];
      while |tokens| > 0 && CurrentToken().Some? && CurrentToken().value.kind != CloseBrace
        invariant ObjectLoop(properties, tokens) == ParseObject(old(tokens))
        invariant IsSuffix(tokens, old(tokens))
        invariant old(tokens) != [] ==> |tokens| < |old(tokens)|
        decreases |tokens|
      {
        ghost var beforeProperty := tokens;
        var property := ParseProperty();
        SuffixTransitive(tokens, beforeProperty, old(tokens));
        if property.Err? {
          return Err(property.error);
        }
        properties := properties + [property.value];
      }
      ghost var beforeEnd := tokens;
      var end := Shift();
      SuffixTransitive(tokens, beforeEnd, old(tokens));
      match end {
        case Some(t) =>
          if t.kind != CloseBrace && t.kind != Comma {
            return Err(Raised(ExpectedCloseBraceOrComma));
          }
        case None =>
      }
      return Ok(ObjectLiteral(properties));
    }

    /** The body of the property loop of `parseObjectExpr`, on a token that is not `}`. */
    method ParseProperty() returns (r: Result<Property>)
      requires tokens != []
      modifies this
      ensures WithRest(r, tokens) == Grammar.ParseProperty(old(tokens))
      ensures IsSuffix(tokens, old(tokens))
      decreases |tokens|, 3
    {
      var key := Shift();
      var ok := Expect(key, TokenType.Identifier, ExpectedIdentifier);
      if ok.Err? {
        return Err(ok.error);
      }
      var next := Shift();
      SuffixTransitive(tokens, old(tokens)[1..], old(tokens));
      if next.Some? && (next.value.kind == Comma || next.value.kind == CloseBrace) {
        // the loop continues with the next property
        return Ok(Property(key.value.value, None));
      }
      ok := Expect(next, Colon, ExpectedColon);
      if ok.Err? {
        return Err(ok.error);
      }
      ghost var beforeValue := tokens;
      var value := ParseExpr();
      SuffixTransitive(tokens, beforeValue, old(tokens));
      if value.Err? {
        return Err(value.error);
      }
      r := Ok(Property(key.value.value, Some(value.value)));
      ghost var beforeClosing := tokens;
      var closing := Shift();
      SuffixTransitive(tokens, beforeClosing, old(tokens));
      // a comma or close brace continues the loop, and so does any other token
      if closing.Some? && (closing.value.kind == Comma || closing.value.kind == CloseBrace) {
        return;
      }
    }

    /**
     * `parseAdditiveExpr`. The source's loop also tests that `left` is truthy;
     * a node is always an object, so that test never fails and is left out.
     */
    method ParseAdditiveExpr() returns (r: Result<Expr>)
      modifies this
      ensures WithRest(r, tokens) == ParseAdditive(old(tokens))
      ensures IsSuffix(tokens, old(tokens))
      decreases |tokens|, 3
    {
      var left := ParseMultiplicativeExpr();
      if left.Err? {
        return left;
      }
      var expr := left.value;
      while |tokens| > 0 && CurrentTokenIsAdditive()
        invariant AdditiveLoop(expr, tokens) == ParseAdditive(old(tokens))
        invariant IsSuffix(tokens, old(tokens)) && |tokens| < |old(tokens)|
        decreases |tokens|
      {
        ghost var beforeOp := tokens;
        var op := Shift();
        SuffixTransitive(tokens, beforeOp, old(tokens));
        ghost var beforeRight := tokens;
        var right := ParseMultiplicativeExpr();
        SuffixTransitive(tokens, beforeRight, old(tokens));
        if right.Err? {
          return right;
        }
        expr := BinaryExpr(op.value.value, expr, right.value);
      }
      return Ok(expr);
    }

    /** `parseMultiplicativeExpr`, with the same never-failing `left` test left out. */
    method ParseMultiplicativeExpr() returns (r: Result<Expr>)
      modifies this
      ensures WithRest(r, tokens) == ParseMultiplicative(old(tokens))
      ensures IsSuffix(tokens, old(tokens))
      decreases |tokens|, 2
    {
      var left := ParsePrimaryExpr();
      if left.Err? {
        return left;
      }
      var expr := left.value;
      while |tokens| > 0 && CurrentTokenIsMultiplicative()
        invariant MultiplicativeLoop(expr, tokens) == ParseMultiplicative(old(tokens))
        invariant IsSuffix(tokens, old(tokens)) && |tokens| < |old(tokens)|
        decreases |tokens|
      {
        ghost var beforeOp := tokens;
        var op := Shift();
        SuffixTransitive(tokens, beforeOp, old(tokens));
        ghost var beforeRight := tokens;
        var right := ParsePrimaryExpr();
        SuffixTransitive(tokens, beforeRight, old(tokens));
        if right.Err? {
          return right;
        }
        expr := BinaryExpr(op.value.value, expr, right.value);
      }
      return Ok(expr);
    }

    /** `handleParen`: called after the `(` has been shifted. */
    method HandleParen() returns (r: Result<Expr>)
      modifies this
      ensures WithRest(r, tokens) == Grammar.HandleParen(old(tokens))
      ensures IsSuffix(tokens, old(tokens))
      decreases |tokens|, 8
    {
      var expr := ParseExpr();
      if expr.Err? {
        return expr;
      }
      ghost var beforeClose := tokens;
      var closeParen := Shift();
      SuffixTransitive(tokens, beforeClose, old(tokens));
      var ok := Expect(closeParen, CloseParen, ExpectedCloseParen);
      if ok.Err? {
        return Err(ok.error);
      }
      return expr;
    }

    /** `parsePrimaryExpr`. */
    method ParsePrimaryExpr() returns (r: Result<Expr>)
      modifies this
      ensures WithRest(r, tokens) == ParsePrimary(old(tokens))
      ensures IsSuffix(tokens, old(tokens))
      decreases |tokens|, 1
    {
      var token := Shift();
      if token.None? {
        return Err(ReadOfUndefined);
      }
      var t := token.value;
      match t.kind {
        case Number => r := Ok(NumericLiteral(t.value));
        case Identifier => r := Ok(Expr.Identifier(t.value));
        case Null => r := Ok(NullLiteral);
        case OpenParen =>
          ghost var afterOpen := tokens;
          r := HandleParen();
          SuffixTransitive(tokens, afterOpen, old(tokens));
        case _ => r := Err(Raised(UnexpectedToken(t)));
      }
    }
  }
}
