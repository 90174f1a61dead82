/**
 * The word classifier of the C front end (c/src/lexer/lexer.c).
 *
 * `tokenize` splits its source on spaces, gives every word at most one token
 * according to the word's first character, appends the tokens in place to a
 * token array, and finishes with an EOF token. A word that fits no case makes
 * the program print a message and exit; here that outcome is the unknown word,
 * returned instead of the EOF token.
 *
 * The splitter `split_str` and the predicates `is_int` and `is_alpha` are not
 * part of this model: the split words and the two predicates are parameters.
 */
module Lexer {
  import opened Wrappers

  /** The token kinds `tokenize` emits. */
  datatype TokenKind =
    | LeftParen
    | RightParen
    | Assign
    | Plus
    | Minus
    | Multiply
    | Divide
    | Number
    | Let
    | Null
    | Identifier
    | Eof

  /** A token: its kind and its text. */
  datatype Token = Token(kind: TokenKind, value: string)

  /** The token appended after the last word. */
  const EofToken := Token(Eof, "EOF")

  /**
   * The character examined for a word: its first one, or the terminating
   * NUL of a C string when the word is empty.
   */
  function FirstChar(word: string): (c: char)
    ensures word != [] ==> c == word[0]
    ensures word == [] ==> c == '\0'
  {
    if word == [] then '\0' else word[0]
  }

  /** What one word contributes: nothing, one token, or the end of tokenizing. */
  datatype Class = Skip | Emit(token: Token) | Unknown

  /** The single-character tokens, by their character. */
  predicate IsOperatorChar(c: char)
  {
    c == '(' || c == ')' || c == '=' || c == '+' || c == '-' || c == '*' || c == '/'
  }

  predicate IsBlankChar(c: char)
  {
    c == ' ' || c == '\n' || c == '\t'
  }

  /** The token a single-character operator stands for, with its fixed text. */
  function OperatorToken(c: char): (t: Token)
    requires IsOperatorChar(c)
    ensures t.value == [c]
    ensures t.kind != Number && t.kind != Let && t.kind != Null && t.kind != Identifier && t.kind != Eof
  {
    match c
    case '(' => Token(LeftParen, "(")
    case ')' => Token(RightParen, ")")
    case '=' => Token(Assign, "=")
    case '+' => Token(Plus, "+")
    case '-' => Token(Minus, "-")
    case '*' => Token(Multiply, "*")
    case '/' => Token(Divide, "/")
  }

  /** The case of the `switch` in `tokenize` that a word falls into. */
  function Classify(word: string, isInt: string -> bool, isAlpha: string -> bool): Class
  {
    var c := FirstChar(word);
    if IsBlankChar(c) then Skip
    else if IsOperatorChar(c) then Emit(OperatorToken(c))
    else if isInt(word) then Emit(Token(Number, word))
    else if isAlpha(word) then
      if word == "let" then Emit(Token(Let, "let"))
      else if word == "null" then Emit(Token(Null, "null"))
      else Emit(Token(Identifier, word))
    else Unknown
  }

  /** The tokens a word contributes, when it does not stop tokenizing. */
  function Emitted(c: Class): (ts: seq<Token>)
    ensures |ts| <= 1
    ensures c.Emit? ==> ts == [c.token]
    ensures !c.Emit? ==> ts == []
  {
    if c.Emit? then [c.token] else []
  }

  /**
   * Progress over a prefix of the words: the tokens pushed so far and, once a
   * word fits no case, that word.
   */
  datatype Scan = Scan(tokens: seq<Token>, unknown: Option<string>)

  /** The words' tokens, word by word in order, up to the first unknown word. */
  function ScanWords(words: seq<string>, isInt: string -> bool, isAlpha: string -> bool): (s: Scan)
    ensures |s.tokens| <= |words|
    ensures forall i :: 0 <= i < |s.tokens| ==> s.tokens[i].kind != Eof
    decreases |words|
  {
    if words == [] then Scan([], None)
    else
      var before := ScanWords(words[..|words| - 1], isInt, isAlpha);
      var last := words[|words| - 1];
      if before.unknown.Some? then before
      else
        match Classify(last, isInt, isAlpha)
        case Skip => before
        case Emit(t) => Scan(before.tokens + [t], None)
        case Unknown => Scan(before.tokens, Some(last))
  }

  /** What `tokenize` leaves appended to the array, and the unknown word if any. */
  function Lex(words: seq<string>, isInt: string -> bool, isAlpha: string -> bool): Scan
  {
    var s := ScanWords(words, isInt, isAlpha);
    if s.unknown.None? then Scan(s.tokens + [EofToken], None) else s
  }

  /** `token_array_t`: a growable array of tokens, appended to in place. */
  class TokenArray {
    var items: seq<Token>

    constructor ()
      ensures items == []
    {
      items := [];
    }

    /** `push_back_token`. */
    method PushBack(t: Token)
      modifies this
      ensures items == old(items) + [t]
    {
      items := items + [t];
    }
  }

  /**
   * `tokenize` over the split words. On success the result is `None` and the
   * array has gained every word's token and then EOF; on an unknown word the
   * result is that word and the array has gained only the tokens before it.
   */
  method Tokenize(tokens: TokenArray, words: seq<string>, isInt: string -> bool, isAlpha: string -> bool)
    returns (unknown: Option<string>)
    modifies tokens
    ensures unknown == Lex(words, isInt, isAlpha).unknown
    ensures tokens.items == old(tokens.items) + Lex(words, isInt, isAlpha).tokens
  {
    for i := 0 to |words|
      invariant ScanWords(words[..i], isInt, isAlpha).unknown.None?
      invariant tokens.items == old(tokens.items) + ScanWords(words[..i], isInt, isAlpha).tokens
    {
      var word := words[i];
      ScanStep(words, i, isInt, isAlpha);
      var known := PushWord(tokens, word, isInt, isAlpha);
      if !known {
        PrefixUnknownStays(words, i + 1, isInt, isAlpha);
        return Some(word);
      }
    }
    assert words[..|words|] == words;
    tokens.PushBack(EofToken);
    return None;
  }

  /**
   * The `switch` on a word's first character: pushes the word's token, if it
   * has one, and reports whether the word fitted a case at all.
   */
  method PushWord(tokens: TokenArray, word: string, isInt: string -> bool, isAlpha: string -> bool)
    returns (known: bool)
    modifies tokens
    ensures known <==> !Classify(word, isInt, isAlpha).Unknown?
    ensures tokens.items == old(tokens.items) + Emitted(Classify(word, isInt, isAlpha))
  {
    var c := FirstChar(word);
    if IsBlankChar(c) {
      return true;
    } else if IsOperatorChar(c) {
      tokens.PushBack(OperatorToken(c));
    } else if isInt(word) {
      tokens.PushBack(Token(Number, word));
    } else if isAlpha(word) {
      if word == "let" {
        tokens.PushBack(Token(Let, "let"));
      } else if word == "null" {
        tokens.PushBack(Token(Null, "null"));
      } else {
        tokens.PushBack(Token(Identifier, word));
      }
    } else {
      return false;
    }
    return true;
  }

  // ---------------------------------------------------------------------
  // Properties
  // ---------------------------------------------------------------------

  /** One more word extends the scan of a prefix that has not stopped by that word's class. */
  lemma ScanStep(words: seq<string>, i: nat, isInt: string -> bool, isAlpha: string -> bool)
    requires i < |words| && ScanWords(words[..i], isInt, isAlpha).unknown.None?
    ensures var before := ScanWords(words[..i], isInt, isAlpha);
      ScanWords(words[..i + 1], isInt, isAlpha)
        == match Classify(words[i], isInt, isAlpha)
           case Skip => before
           case Emit(t) => Scan(before.tokens + [t], None)
           case Unknown => Scan(before.tokens, Some(words[i]))
  {
    assert words[..i + 1][..i] == words[..i];
  }

  /** Once a prefix has met an unknown word, the whole scan is that prefix's. */
  lemma {:induction false} PrefixUnknownStays(words: seq<string>, k: nat, isInt: string -> bool, isAlpha: string -> bool)
    requires k <= |words|
    requires ScanWords(words[..k], isInt, isAlpha).unknown.Some?
    ensures ScanWords(words, isInt, isAlpha) == ScanWords(words[..k], isInt, isAlpha)
    decreases |words| - k
  {
    if k == |words| {
      assert words[..k] == words;
    } else {
      assert words[..k + 1][..k] == words[..k];
      PrefixUnknownStays(words, k + 1, isInt, isAlpha);
    }
  }

  /**
   * Scanning `a + b` scans `a` and, unless `a` held an unknown word, goes on
   * with `b` where `a` stopped: the tokens follow the words' order.
   */
  lemma {:induction false} ScanAppend(a: seq<string>, b: seq<string>, isInt: string -> bool, isAlpha: string -> bool)
    ensures var sa := ScanWords(a, isInt, isAlpha);
      var sb := ScanWords(b, isInt, isAlpha);
      ScanWords(a + b, isInt, isAlpha)
        == if sa.unknown.Some? then sa else Scan(sa.tokens + sb.tokens, sb.unknown)
    decreases |b|
  {
    if b == [] {
      assert a + b == a;
    } else {
      var b' := b[..|b| - 1];
      assert (a + b)[..|a + b| - 1] == a + b';
      assert (a + b)[|a + b| - 1] == b[|b| - 1];
      ScanAppend(a, b', isInt, isAlpha);
      var sa := ScanWords(a, isInt, isAlpha);
      var sb' := ScanWords(b', isInt, isAlpha);
      if sa.unknown.None? && sb'.unknown.None? {
        match Classify(b[|b| - 1], isInt, isAlpha)
        case Skip =>
        case Emit(t) =>
          assert sa.tokens + sb'.tokens + [t] == sa.tokens + (sb'.tokens + [t]);
        case Unknown =>
      }
    }
  }

  /** The tokens of the words, by recursion from the front. */
  function FrontTokens(words: seq<string>, isInt: string -> bool, isAlpha: string -> bool): seq<Token>
    decreases |words|
  {
    if words == [] then []
    else Emitted(Classify(words[0], isInt, isAlpha)) + FrontTokens(words[1..], isInt, isAlpha)
  }

  /**
   * The scan stops exactly when some word fits no case; otherwise its tokens
   * are every word's contribution in order, concatenated.
   */
  lemma {:induction false} ScanIsConcatenation(words: seq<string>, isInt: string -> bool, isAlpha: string -> bool)
    ensures ScanWords(words, isInt, isAlpha).unknown.None?
        <==> forall i :: 0 <= i < |words| ==> !Classify(words[i], isInt, isAlpha).Unknown?
    ensures ScanWords(words, isInt, isAlpha).unknown.None? ==>
              ScanWords(words, isInt, isAlpha).tokens == FrontTokens(words, isInt, isAlpha)
    decreases |words|
  {
    if words != [] {
      var init := words[..|words| - 1];
      var last := words[|words| - 1];
      ScanIsConcatenation(init, isInt, isAlpha);
      assert forall i :: 0 <= i < |init| ==> init[i] == words[i];
      assert words == init + [last];
      FrontTokensAppend(init, last, isInt, isAlpha);
    }
  }

  /** The front recursion seen from the back: one more word adds its tokens at the end. */
  lemma {:induction false} FrontTokensAppend(words: seq<string>, last: string, isInt: string -> bool, isAlpha: string -> bool)
    ensures FrontTokens(words + [last], isInt, isAlpha)
         == FrontTokens(words, isInt, isAlpha) + Emitted(Classify(last, isInt, isAlpha))
    decreases |words|
  {
    if words == [] {
      assert [] + [last] == [last];
      assert [last][1..] == [];
    } else {
      assert (words + [last])[1..] == words[1..] + [last];
      FrontTokensAppend(words[1..], last, isInt, isAlpha);
    }
  }

  /**
   * A scan that stops does so at the first unknown word, keeping the tokens
   * of the words before it.
   */
  lemma FirstUnknownWord(words: seq<string>, k: nat, isInt: string -> bool, isAlpha: string -> bool)
    requires k < |words| && Classify(words[k], isInt, isAlpha).Unknown?
    requires forall j :: 0 <= j < k ==> !Classify(words[j], isInt, isAlpha).Unknown?
    ensures ScanWords(words, isInt, isAlpha)
         == Scan(FrontTokens(words[..k], isInt, isAlpha), Some(words[k]))
  {
    var prefix := words[..k];
    assert forall j :: 0 <= j < |prefix| ==> !Classify(prefix[j], isInt, isAlpha).Unknown? by {
      assert forall j :: 0 <= j < |prefix| ==> prefix[j] == words[j];
    }
    ScanIsConcatenation(prefix, isInt, isAlpha);
    ScanStep(words, k, isInt, isAlpha);
    PrefixUnknownStays(words, k + 1, isInt, isAlpha);
  }

  /**
   * A finished tokenization ends with exactly one EOF token, after the words'
   * tokens, and has at most one token per word besides it.
   */
  lemma OneEofAtTheEnd(words: seq<string>, isInt: string -> bool, isAlpha: string -> bool)
    ensures var r := Lex(words, isInt, isAlpha);
      r.unknown.None? ==>
        && 1 <= |r.tokens| <= |words| + 1
        && r.tokens[|r.tokens| - 1] == EofToken
        && forall i :: 0 <= i < |r.tokens| - 1 ==> r.tokens[i].kind != Eof
  {
    var s := ScanWords(words, isInt, isAlpha);
    if s.unknown.None? {
      assert forall i :: 0 <= i < |s.tokens| ==> (s.tokens + [EofToken])[i] == s.tokens[i];
    }
  }

  /** A stopped tokenization pushes no EOF token at all. */
  lemma NoEofAfterUnknown(words: seq<string>, isInt: string -> bool, isAlpha: string -> bool)
    ensures var r := Lex(words, isInt, isAlpha);
      r.unknown.Some? ==> |r.tokens| < |words| && forall i :: 0 <= i < |r.tokens| ==> r.tokens[i].kind != Eof
  {
    UnknownLeavesAWordOut(words, isInt, isAlpha);
  }

  lemma {:induction false} UnknownLeavesAWordOut(words: seq<string>, isInt: string -> bool, isAlpha: string -> bool)
    ensures ScanWords(words, isInt, isAlpha).unknown.Some? ==> |ScanWords(words, isInt, isAlpha).tokens| < |words|
    decreases |words|
  {
    if words != [] {
      UnknownLeavesAWordOut(words[..|words| - 1], isInt, isAlpha);
    }
  }

  // ---------------------------------------------------------------------
  // One word
  // ---------------------------------------------------------------------

  /** A single word is scanned by its class alone. */
  lemma ScanOne(word: string, isInt: string -> bool, isAlpha: string -> bool)
    ensures ScanWords([word], isInt, isAlpha)
         == match Classify(word, isInt, isAlpha)
            case Skip => Scan([], None)
            case Emit(t) => Scan([t], None)
            case Unknown => Scan([], Some(word))
  {
    assert [word][..0] == [];
    assert ScanWords([], isInt, isAlpha) == Scan([], None);
  }

  /** A word that starts with a space, newline or tab yields no token. */
  lemma BlankWordIsSkipped(word: string, isInt: string -> bool, isAlpha: string -> bool)
    requires word != [] && IsBlankChar(word[0])
    ensures Classify(word, isInt, isAlpha) == Skip
    ensures Lex([word], isInt, isAlpha) == Scan([EofToken], None)
  {
    ScanOne(word, isInt, isAlpha);
  }

  /**
   * A word that starts with an operator character yields that operator's
   * token with its fixed text, whatever follows and whatever `is_int` says.
   */
  lemma OperatorWinsOverNumber(word: string, isInt: string -> bool, isAlpha: string -> bool)
    requires word != [] && IsOperatorChar(word[0])
    ensures Classify(word, isInt, isAlpha) == Emit(OperatorToken(word[0]))
    ensures Lex([word], isInt, isAlpha) == Scan([OperatorToken(word[0]), EofToken], None)
  {
    ScanOne(word, isInt, isAlpha);
  }

  /** So `-5` is the minus sign, not a negative number. */
  lemma MinusFiveIsMinus(isInt: string -> bool, isAlpha: string -> bool)
    ensures Classify("-5", isInt, isAlpha) == Emit(Token(Minus, "-"))
  {
    OperatorWinsOverNumber("-5", isInt, isAlpha);
  }

  /**
   * Any other word: a number when `is_int` holds, even if `is_alpha` holds too;
   * otherwise a keyword or a name when `is_alpha` holds; otherwise unknown.
   */
  lemma OtherWords(word: string, isInt: string -> bool, isAlpha: string -> bool)
    requires !IsBlankChar(FirstChar(word)) && !IsOperatorChar(FirstChar(word))
    ensures isInt(word) ==> Classify(word, isInt, isAlpha) == Emit(Token(Number, word))
    ensures !isInt(word) && isAlpha(word) ==>
              Classify(word, isInt, isAlpha).Emit?
              && var t := Classify(word, isInt, isAlpha).token;
              && (t.kind == Let <==> word == "let")
              && (t.kind == Null <==> word == "null")
              && (t.kind == Identifier <==> word != "let" && word != "null")
              && t.value == word
    ensures Classify(word, isInt, isAlpha) == Unknown <==> !isInt(word) && !isAlpha(word)
  {
  }
}
