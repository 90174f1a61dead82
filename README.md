# A verified model of a toy interpreter's front end

This project models three parts of a small interpreter written in TypeScript and C, and proves properties of each:

- **The TypeScript recursive-descent parser** (`typescript/parser.ts`). A `Parser` object holds a token list that its methods take from the front with `shift()`. Each grammar rule is one method:
  - program, statement, variable declaration and assignment;
  - object literal, additive and multiplicative expressions;
  - parenthesised and primary expressions.
  
  Errors are thrown as `Error(message)`.
  - `Grammar` (grammar.dfy) gives every rule as a function from the remaining tokens to an error, or to the node built plus the tokens left over.
  - `Parsing.Parser` (parser.dfy) is the class. It has a `tokens` field, and its methods shift tokens off that field in the order the source does. Each method is proved to return what its `Grammar` function returns and to leave the tokens it leaves.
  - `GrammarProperties` (grammar_properties.dfy) proves what the grammar does:
    - statements are parsed in order and cover the input;
    - the shape and the error cases of a declaration;
    - binary operators fold to the left, and `*` binds tighter than `+`;
    - assignment nests to the right;
    - object keys are identifiers;
    - the consequences of `expect` accepting a missing token.
- **The C word classifier** (`c/src/lexer/lexer.c`, `tokenize`). It walks the words of the source. For each word it pushes at most one token, chosen by the word's first character, onto a token array, and then it appends an EOF token. `Lexer.Tokenize` keeps the loop and the in-place array (`Lexer.TokenArray`). It is proved against the word-by-word function `Lexer.Lex`, whose properties are proved as lemmas.
- **The runtime values** (`runtime/values.ts`). These are the seven value types, the value shapes and the helper constructors `FN`, `NATIVEFN`, `STRING`, `NUMBER`, `NULL` and `BOOL`. They are in module `Values`.

How the model treats a few of the source's behaviours:
- `shift()` on an empty list yields `undefined`. `expect` accepts `undefined`. Reading `.type` of `undefined` raises a host `TypeError`, which the model calls `ReadOfUndefined`.
- An expression statement whose expression ends without consuming the next token, such as `1 + 2 * 3`, leaves a following `;` in place. `parseStmt` returns the expression, and the next statement then starts at the `;`, which no primary expression accepts. So `1 + 2 * 3 ;` at top level is an "Unexpected token" error naming the `;` (`GrammarProperties.ProductInsideSum`).
  - An assignment does take its `;`. `parseAssignmentExpr` shifts the token after the value and checks that it is `;`, so `x = v ;`, such as `y = 1 ;`, is a whole program (`GrammarProperties.AssignmentStatementTakesSemicolon`).
  - An object literal whose last property has a value also takes the `;`, because the object loop consumes whatever token follows a value. So `{ a: 1 ;` is a whole program of one object statement (`GrammarProperties.ValuedPropertyTakesSemicolon`).
- The object loop treats `}` as just another separator. After a key with no value, or as the token consumed after a value, `}` does not end the loop. The loop ends only at a `}` in key position or at the end of the tokens.
  - So an object literal whose last property is followed by its `}`, such as `{ b }`, fails when a token that is neither `}` nor an identifier comes next: the expression `{ b } ;` is an "Expected identifier" error at its `;` (`GrammarProperties.ObjectFollowedByTokenFails`).
  - A literal whose `}` stands in key position ends there and leaves the next token alone. This holds for `{ }` and for `{ b , }` (`GrammarProperties.EmptyObjectLeavesNextToken`, `GrammarProperties.TrailingCommaObjectLeavesNextToken`).
  - An identifier there is read as one more key. `expect` lets the missing `:` through, and the value is parsed from no tokens as the empty object, so `{ b } c` is the object with keys `b` and `c`, the latter valued `{}` (`GrammarProperties.IdentifierAfterObjectIsAKey`).
  - A declaration parses its value with the same rule. So `let x = { b };` is rejected in the same way, while `let x = {};` and `let x = { b, };` parse (`GrammarProperties.TrailingCommaInitializer`).
  - The model keeps this behaviour of the code.
- A call to a parser method, or the `Parse` entry point, returns a `Result`. A thrown error becomes `Err`, which is returned at once without touching later tokens.
- Modules: `Wrappers` defines `Option`, and `Ast` defines the tokens and nodes the parser uses.

## Model

| member | source | states |
|---|---|---|
| Parsing.Parser.constructor | typescript/parser.ts:21 | a new parser holds no tokens |
| Parsing.Parser.CurrentToken | typescript/parser.ts:39-41 | the current token is present exactly when tokens remain, and it is the first one |
| Parsing.Parser.Shift | typescript/parser.ts:99 | `shift()` returns the first token, or nothing on an empty list, and removes exactly that token from the front |
| Parsing.Parser.Parse | typescript/parser.ts:72-90 | the program returned is the one the grammar gives for the tokens; on success every token has been consumed |
| Parsing.Parser.ParseVariableDeclaration | typescript/parser.ts:97-137 | the declaration or error, and the tokens left, are those of the declaration rule applied to the tokens on entry; only a prefix of the tokens is consumed |
| Parsing.Parser.ParseStmt | typescript/parser.ts:143-152 | as the statement rule: a declaration after `let`/`const`, an expression otherwise |
| Parsing.Parser.ParseExpr | typescript/parser.ts:158-160 | as the expression rule; only a prefix of the tokens is consumed |
| Parsing.Parser.ParseAssignmentExpr | typescript/parser.ts:166-192 | as the assignment rule; only a prefix of the tokens is consumed |
| Parsing.Parser.ParseObjectExpr | typescript/parser.ts:198-274 | as the object rule, including its loop over properties |
| Parsing.Parser.ParseProperty | typescript/parser.ts:215-256 | one iteration of the object loop body behaves as the property rule |
| Parsing.Parser.ParseAdditiveExpr | typescript/parser.ts:280-307 | as the additive rule, loop included |
| Parsing.Parser.ParseMultiplicativeExpr | typescript/parser.ts:313-344 | as the multiplicative rule, loop included |
| Parsing.Parser.HandleParen | typescript/parser.ts:350-361 | as the parenthesis rule |
| Parsing.Parser.ParsePrimaryExpr | typescript/parser.ts:367-400 | as the primary rule |
| Grammar.Expect | typescript/parser.ts:30-33 | an error exactly when a token is present and of another kind, and then the given message; otherwise true |
| Grammar.UnexpectedToken | typescript/parser.ts:398 | the message is "Unexpected token ", then the token's text, then a space, and it ends with ")" |
| Grammar.First | typescript/parser.ts:99 | the first token is present exactly when the list is non-empty |
| Grammar.Drop1 | typescript/parser.ts:216 | removing the first token leaves the rest, and an empty list stays empty |
| Grammar.ProgramLoop | typescript/parser.ts:83-86 | the parsed body extends the statements parsed so far by at most one statement per token; "Expected close brace or comma" never comes out |
| Grammar.ParseStmt | typescript/parser.ts:143-152 | a successful statement consumes at least one token, and only from the front |
| Grammar.ParseVarDeclaration | typescript/parser.ts:97-137 | a successful declaration consumes at least one token, and only from the front |
| Grammar.ParseExpr | typescript/parser.ts:158-160 | consumes only from the front, and at least one token when any is present |
| Grammar.ParseAssignment | typescript/parser.ts:166-192 | consumes only from the front, and at least one token when any is present |
| Grammar.ParseObject | typescript/parser.ts:198-274 | consumes only from the front; the "Expected close brace or comma" error of lines 260-267 is never raised |
| Grammar.ObjectLoop | typescript/parser.ts:210-257 | consumes only from the front; never raises "Expected close brace or comma" |
| Grammar.ParseProperty | typescript/parser.ts:215-256 | a property consumes at least its key token, and only from the front |
| Grammar.ParseAdditive | typescript/parser.ts:280-307 | consumes at least one token, and only from the front |
| Grammar.AdditiveLoop | typescript/parser.ts:285-304 | consumes only from the front |
| Grammar.ParseMultiplicative | typescript/parser.ts:313-344 | consumes at least one token, and only from the front |
| Grammar.MultiplicativeLoop | typescript/parser.ts:318-341 | consumes only from the front |
| Grammar.HandleParen | typescript/parser.ts:350-361 | consumes only from the front, and at least one token when any is present |
| Grammar.ParsePrimary | typescript/parser.ts:367-400 | consumes at least one token, and only from the front; its outcomes are in GrammarProperties.PrimaryOutcome |
| GrammarProperties.ProgramLoopCovers | typescript/parser.ts:83-86 | the loop yields the statements parsed so far followed by `ss` exactly when `ss` are the statements the tokens split into |
| GrammarProperties.ProgramIsStatementsInOrder | typescript/parser.ts:72-90 | a program is `ss` if and only if the tokens split, from left to right, into statements `ss` with nothing left |
| GrammarProperties.DeclarationShape | typescript/parser.ts:97-137 | a parsed declaration is named by the second token and constant exactly after `const`; it has no value exactly when `;` follows the name, and otherwise its value is the expression after `=`, closed by `;` or by nothing |
| GrammarProperties.DeclarationWithoutValue | typescript/parser.ts:97-137 | `let x ;` or `const x ;` is the declaration of `x`, constant exactly after `const`, without a value, consuming those three tokens |
| GrammarProperties.DeclarationWithValue | typescript/parser.ts:97-137 | `let x = e` or `const x = e` followed by `;` or by nothing is the declaration of `x` with value `e`, constant exactly after `const`, consuming the `;` too |
| GrammarProperties.DeclarationErrors | typescript/parser.ts:97-137 | a non-identifier name is "Expected identifier", neither `;` nor `=` after it is "Expected variable assignment", another token after the value is "Expected semicolon", and running out of tokens too early reads `undefined` |
| GrammarProperties.LoopIsLeftFold | typescript/parser.ts:280-344 | a successful operator loop is the left fold of the operator-operand steps it consumed |
| GrammarProperties.LeftFoldIsLoop | typescript/parser.ts:280-344 | conversely, every chain of operator-operand steps is parsed as its left fold |
| GrammarProperties.LoopStopsOnlyAtOtherTokens | typescript/parser.ts:285-322 | a loop consumes nothing exactly when no token is left or the next one is not an operator of its level |
| GrammarProperties.SubtractionGroupsLeft | typescript/parser.ts:280-307 | `a - b - c` parses as `(a - b) - c` |
| GrammarProperties.OperandIsAtom | typescript/parser.ts:367-393 | a number, name or `null` token is its own operand at every level when no operator follows it |
| GrammarProperties.AtomAtMultiplicative | typescript/parser.ts:313-344 | an atom not followed by `*`, `/` or `%` is the whole product |
| GrammarProperties.AtomAtAdditive | typescript/parser.ts:280-307 | an atom not followed by an operator is the whole sum and the whole object-level expression |
| GrammarProperties.SuffixParenFree | typescript/parser.ts:350-361 | what remains of a token list without parentheses has none either |
| GrammarProperties.ProductLoopTree | typescript/parser.ts:318-341 | the multiplicative loop over parenthesis-free tokens builds only `*`, `/`, `%` nodes over atoms |
| GrammarProperties.ProductTree | typescript/parser.ts:313-344 | without parentheses, a product is a tree of multiplicative operators over atoms |
| GrammarProperties.SumLoopTree | typescript/parser.ts:285-304 | the additive loop over parenthesis-free tokens puts `+`/`-` nodes only above products |
| GrammarProperties.Precedence | typescript/parser.ts:280-344 | without parentheses, no additive operator appears under a multiplicative one |
| GrammarProperties.ProductOfAtoms | typescript/parser.ts:313-344 | `x * y` followed by no multiplicative operator is one product node |
| GrammarProperties.ProductBindsTighter | typescript/parser.ts:280-344 | `x + y * z` parses as `x + (y * z)` |
| GrammarProperties.NoExpressionStart | typescript/parser.ts:367-400 | an expression or statement starting with `;`, `=`, `}`, `,`, `:`, an operator or `)` is an "Unexpected token" error for that token |
| GrammarProperties.ProductInsideSum | typescript/parser.ts:143-152 | `1 + 2 * 3 ;` is `1 + (2 * 3)` leaving the `;`, so the program fails with "Unexpected token" naming that `;` token, whatever its text |
| GrammarProperties.AssignmentStatementTakesSemicolon | typescript/parser.ts:166-192 | `x = v ;` is a program of the single assignment statement, its `;` consumed |
| GrammarProperties.AssignmentShape | typescript/parser.ts:166-192 | without `=` the left side is the result; with `=` the value is parsed by the assignment rule again, then one more token is taken that must be `;` or absent |
| GrammarProperties.ChainedAssignment | typescript/parser.ts:166-192 | `x = y = z ;` nests to the right, `x = (y = z)` |
| GrammarProperties.AssignmentChainsRight | typescript/parser.ts:166-192 | `a = b = c ;` assigns `b = c` to `a` |
| GrammarProperties.PropertyOutcome | typescript/parser.ts:215-256 | a non-identifier key is "Expected identifier"; `,` or `}` after the key gives a shorthand property; another token that is not `:` is "Expected colon"; after `:` the value is an expression followed by one more consumed token |
| GrammarProperties.ObjectKeysAreIdentifiers | typescript/parser.ts:210-257 | an object literal keeps the properties already parsed as a prefix, and every new key is the text of an identifier token of the literal |
| GrammarProperties.ObjectLoopStep | typescript/parser.ts:210-257 | a successful loop step parses a property keyed by the identifier at the front and continues after it |
| GrammarProperties.KeysAfterStep | typescript/parser.ts:210-257 | the keys collected after one step still come from identifier tokens of the whole literal |
| GrammarProperties.KeyInSuffix | typescript/parser.ts:216 | an identifier of what remains is an identifier of the whole list |
| GrammarProperties.ValuedProperty | typescript/parser.ts:237-256 | `k: v ,` is the property `k` with value `v` |
| GrammarProperties.ShorthandProperty | typescript/parser.ts:220-235 | `k ,` or `k }` is the property `k` without a value |
| GrammarProperties.LoopTakesProperty | typescript/parser.ts:210-257 | at a token other than `}` the loop parses one property and goes on after it with that property appended |
| GrammarProperties.ObjectExprIsLoop | typescript/parser.ts:198-207 | an expression starting with `{` is the object loop's outcome when no `=` follows the literal |
| GrammarProperties.TwoPropertyObject | typescript/parser.ts:198-274 | `{ k: v, m }` is the object with a valued `k` and a shorthand `m`, and consumes all seven tokens |
| GrammarProperties.ValuedAndShorthandProperties | typescript/parser.ts:198-274 | `{ a: 1, b }` has a valued property `a` and a shorthand property `b` |
| GrammarProperties.EmptyObjectLeavesNextToken | typescript/parser.ts:198-267 | `{ }` is the empty literal, ending at its `}` and leaving the next token |
| GrammarProperties.TrailingCommaObjectLeavesNextToken | typescript/parser.ts:198-267 | `{ k , }` is the one-shorthand literal, ending at the `}` in key position and leaving the next token |
| GrammarProperties.TrailingCommaInitializer | typescript/parser.ts:97-137 | `let x = { k , } ;` is a whole program of one declaration whose value is that literal |
| GrammarProperties.IdentifierAfterObjectIsAKey | typescript/parser.ts:210-256 | `{ k } j` is the object with keys `k` and `j`, `j` valued by the empty object |
| GrammarProperties.ValuedPropertyTakesSemicolon | typescript/parser.ts:210-256 | `{ k : v ;` is a whole program of one object statement, its `;` consumed after the value |
| GrammarProperties.ObjectFollowedByTokenFails | typescript/parser.ts:210-256 | `{ k }` followed by a token that is neither `}` nor an identifier fails with "Expected identifier" |
| GrammarProperties.PrimaryOutcome | typescript/parser.ts:367-400 | a number, name or `null` consumes its one token, `(` goes on to a parenthesised expression, no token reads `undefined`, and any other token is "Unexpected token" |
| GrammarProperties.ParenOutcome | typescript/parser.ts:350-361 | after the inner expression, a token other than `)` is "Expected close paren"; `)` or no token closes it |
| GrammarProperties.NoTokensIsEmptyObject | typescript/parser.ts:198-207 | an expression over no tokens is the empty object literal, since the brace check passes on `undefined` |
| GrammarProperties.DanglingInitializer | typescript/parser.ts:97-137 | `let x =` with nothing after it declares `x` with an empty object as its value |
| GrammarProperties.MissingInitializer | typescript/parser.ts:97-137 | `let x = ;` fails with "Unexpected token" naming that `;` token, whatever its text |
| Lexer.FirstChar | c/src/lexer/lexer.c:31 | the switch examines a word's first character, or NUL for an empty word |
| Lexer.OperatorToken | c/src/lexer/lexer.c:37-57 | an operator character gives a token whose text is that character, of an operator kind |
| Lexer.Emitted | c/src/lexer/lexer.c:31-84 | a word pushes exactly its token when it has one, and nothing otherwise |
| Lexer.ScanWords | c/src/lexer/lexer.c:25-88 | the loop pushes at most one token per word and never an EOF token |
| Lexer.TokenArray.constructor | c/src/lexer/lexer.c:19 | a new token array is empty |
| Lexer.TokenArray.PushBack | c/src/lexer/lexer.c:38 | `push_back_token` appends exactly the given token |
| Lexer.Tokenize | c/src/lexer/lexer.c:19-95 | the array gains exactly the tokens of the words, up to the first unknown word, which is returned; when there is none, EOF is appended |
| Lexer.PushWord | c/src/lexer/lexer.c:31-84 | one word appends exactly its own token, if any; the word is known exactly when it is not rejected |
| Lexer.ScanStep | c/src/lexer/lexer.c:25-88 | one more word extends the tokens of the earlier words by that word's token |
| Lexer.PrefixUnknownStays | c/src/lexer/lexer.c:78-82 | once a word is unknown, no later word changes the outcome |
| Lexer.ScanAppend | c/src/lexer/lexer.c:25-88 | scanning two word lists in a row is scanning them one after the other, unless the first stops at an unknown word |
| Lexer.ScanIsConcatenation | c/src/lexer/lexer.c:25-88 | no word is rejected exactly when every word is known, and then the tokens are those of the words concatenated in order |
| Lexer.FrontTokensAppend | c/src/lexer/lexer.c:25-88 | the concatenated tokens of one more word extend those of the earlier words |
| Lexer.FirstUnknownWord | c/src/lexer/lexer.c:78-82 | the reported word is the first unknown one, and the tokens are those of the words before it |
| Lexer.OneEofAtTheEnd | c/src/lexer/lexer.c:93-94 | on success the last token is EOF, it is the only EOF, and there are between 1 and one more than the number of words |
| Lexer.NoEofAfterUnknown | c/src/lexer/lexer.c:78-82 | after an unknown word no EOF token is pushed |
| Lexer.UnknownLeavesAWordOut | c/src/lexer/lexer.c:78-82 | when a word is rejected, fewer tokens than words were pushed |
| Lexer.ScanOne | c/src/lexer/lexer.c:31-84 | a single word scans to its own token or its rejection |
| Lexer.BlankWordIsSkipped | c/src/lexer/lexer.c:33-36 | a word starting with a space, newline or tab gives no token |
| Lexer.OperatorWinsOverNumber | c/src/lexer/lexer.c:37-57 | a word starting with an operator character gives the operator token whatever follows |
| Lexer.MinusFiveIsMinus | c/src/lexer/lexer.c:49-51 | so `-5` is the minus token, not a number |
| Lexer.OtherWords | c/src/lexer/lexer.c:58-83 | any other word is a number when `is_int` holds, else `let`, `null` or an identifier when `is_alpha` holds, and it is rejected exactly when neither holds |
| Values.TypeNamed | runtime/values.ts:7-14 | a type string read back names the type it is the name of |
| Values.SevenValueTypes | runtime/values.ts:7-14 | there are exactly seven value types with seven distinct names, and each name reads back as its type |
| Values.TypeNameInjective | runtime/values.ts:7-14 | two types with the same name are the same type |
| Values.TypeFieldMatchesShape | runtime/values.ts:19-81 | a value's `type` field names its interface and no other |
| Values.MakeFn | runtime/values.ts:89-91 | `FN` makes a "fn" value with exactly the given parameters and environment, and with no name or body |
| Values.MakeNativeFn | runtime/values.ts:98-100 | `NATIVEFN` makes a "nativefn" value wrapping the given call |
| Values.MakeString | runtime/values.ts:107-109 | `STRING` makes a "string" value holding the given text |
| Values.MakeNumber | runtime/values.ts:116-118 | `NUMBER` makes a "number" value holding the given number |
| Values.MakeBool | runtime/values.ts:134-136 | `BOOL` makes a "boolean" value holding the given truth value |
| Values.NullIsUnique | runtime/values.ts:124-127 | `NULL` has type and text "null", and is the only value of type "null" |
| Values.HelpersAreInjective | runtime/values.ts:89-136 | equal results of FN, NATIVEFN, STRING, NUMBER or BOOL come from equal arguments |
| Values.HelpersAreDisjoint | runtime/values.ts:89-136 | values made by different helpers always differ in their type |

## Left out

- `tokenize` of the TypeScript lexer (`lexer.ts`) is not part of this model. `Parsing.Parser.Parse` takes the token list that `parse` obtains from it.
- The token kinds and the AST shapes are declared in `lexer.ts` and `ast.ts`, which are not part of this model. Only the kinds and fields the parser reads or writes are modelled.
- Grammar.UnexpectedToken: the source writes the token kind as the value of a TypeScript enum member, which is declared in `lexer.ts`. That file is not part of this model, so the message writes the member's name (`KindName`) instead.
- `parseFloat` and IEEE doubles: a numeric literal keeps its token text, and a runtime number is an unbounded integer.
- The getters `currentTokenIsAdditive` and `currentTokenIsMultiplicative` are predicates without a contract of their own. They are only read where a token is present, as in the source's loop guards. The truthiness test `&& left` in both loops always holds on a parsed node, so it is not modelled.
- Parsing.Parser.ParseProperty is the body of the object loop, split out as a method of its own. It is not a method of the source.
- Lexer.PushWord is the `switch` of the `tokenize` loop, split out as a method of its own.
- `split_str`, `is_int` and `is_alpha` (`c/src/utils`) are not part of this model. The split words and the two predicates are parameters.
- The operator characters, and the words `let` and `null` that `Lexer.Classify` compares against `TOKEN_TYPE_LET_VALUE` and `TOKEN_TYPE_NULL_VALUE`, come from the token names, because `../tokens/token.h` is not part of this model.
- `new_token` is not modelled separately: a token is its kind and its text.
- Lexer.Tokenize: the process exit on an unknown word. `printf` and `exit(1)` are modelled as returning that word, with no EOF token appended.
- `free`, `free_split_array` and all other memory management are not modelled.
- `runtime/env.ts` (the environment) and the host functions behind `FnCall` are not part of this model. A value refers to them by opaque handles.
- Values.MakeFn: the cast `as FnValue` leaves `name` and `body` unset. The model makes them optional and leaves them empty.
