# jlox scanner driver, token and token kinds in Dafny

This project models the lexical front end of jlox, a Java interpreter for the
Lox scripting language. It covers three parts:

- `TokenTypes` (`token_type.dfy`): the enum `TokenType`. It is a closed
  datatype with its 39 constants spelled as in Java, `RIGHT_BRANCE` included.
  The module also has the enum's `ordinal()`, `values()` and `name()`. It has
  `valueOf` as `FromName`, which returns `None` where Java would throw. It has
  the five groups the declaration lays out: single-character,
  one-or-two-character, literal, keyword and end-of-input.
- `Tokens` (`token.dfy`): the class `Token` as an immutable datatype, plus
  its `toString()`. The Java field `type` is called `tokenType`, because
  `type` is a Dafny keyword. The `Object literal`, which may be `null`, is an
  `Option<L>` with `L` a type parameter. Java's `toString()` of a present
  literal is a `render: L -> string` parameter. The datatype constructor
  keeps the four fields exactly as given, as the Java constructor does; unlike
  Java, a kind and a lexeme are always present (see "Left out"). No operation changes a token once it exists.
- `Scanning` (`scanner.dfy`): the class `Scanner`, with its constructor,
  `isAtEnd()` and the driver loop `scanTokens()`. Its fields are
  `const source`, a `seq` of tokens that the methods only append to (the
  Java `ArrayList` field `token`), and `start`, `current` and `line`.

The body of `scanToken()` is not part of this model. The driver calls it at
jlox/Scanner.java:51, but no file of the repository defines it, so its rules
(maximal munch, comments, string and number literals, keywords) have no code
to follow. This model does not invent them. The step is a parameter of type
`Step<L> = Cursor --> Advance<L>`. It receives the source and the cursor
fields, and it returns the new `current` and `line` and the tokens it
appends. Every result about the driver rests on one ASSUMED contract,
`Scanning.Advances`. When called with `start == current < |source|`, the step
is defined and advances `current` by at least one without passing the end of
the source. It also never lowers `line`. Because the step is a partial
function with that domain, Dafny checks that every call site meets the entry
condition.

`Scanning.Drive` states the loop as a function, together with the trace of
the cursors it calls `scanToken` on. `ScanTokens` is proved equal to it (its
new `current`, `line`, `start` and token list). `ScanAll` is what a freshly
built scanner returns.

## Model

| member | source | states |
|---|---|---|
| `TokenTypes.Ordinal` | jlox/TokenType.java:6-25 | every kind has a declaration position below 39 |
| `TokenTypes.FromOrdinal` | jlox/TokenType.java:6-25 | the kind at each position 0..38 is the one whose ordinal is that position |
| `TokenTypes.AllTypes` | jlox/TokenType.java:6-25 | `values()` has 39 entries; entry i has ordinal i, and each kind sits at its own ordinal |
| `TokenTypes.KindsClosedAndDistinct` | jlox/TokenType.java:6-25 | every kind is among the 39, and the 39 are pairwise distinct |
| `TokenTypes.GroupIsContiguous` | jlox/TokenType.java:7-24 | each group is one contiguous run of ordinals: 0-10, 11-18, 19-21, 22-37, 38 |
| `TokenTypes.Members` | jlox/TokenType.java:7-24 | a group's member list holds exactly the kinds of that group, with no repeats |
| `TokenTypes.GroupsPartitionDeclaration` | jlox/TokenType.java:7-24 | the five groups, in order, make up the whole declaration, so they are disjoint and cover all 39 kinds; their sizes are 11, 8, 3, 16 and 1 |
| `TokenTypes.SingleCharBoundaries` | jlox/TokenType.java:7-9 | the single-character group runs from LEFT_PAREN to STAR, with RIGHT_BRANCE (spelled so) fourth |
| `TokenTypes.LiteralMembers` | jlox/TokenType.java:17-18 | the literal group is exactly IDENTIFIER, STRING, NUMBER |
| `TokenTypes.KeywordBoundaries` | jlox/TokenType.java:20-24 | the keyword group runs from AND to WHILE, and the end-of-input group is EOF alone |
| `TokenTypes.SingleEndOfInput` | jlox/TokenType.java:24 | EOF is the only end-of-input kind |
| `TokenTypes.EqualForm` | jlox/TokenType.java:11-15 | a partner exists only within the one-or-two-character group, and its name is the base name followed by `_EQUAL` |
| `TokenTypes.OneOrTwoCharArePairs` | jlox/TokenType.java:11-15 | a kind is in the one-or-two-character group exactly when it is a base X or the X_EQUAL partner of one; partners are not bases |
| `TokenTypes.NameIsWord` | jlox/TokenType.java:6-25 | every constant's name is non-empty and contains no space |
| `TokenTypes.NameInjective` | jlox/TokenType.java:6-25 | distinct constants have distinct names |
| `TokenTypes.FromName` | jlox/TokenType.java:6-25 | a kind found for a string is one whose name is that string |
| `TokenTypes.NameRoundTrip` | jlox/TokenType.java:6-25 | `FromName` inverts `Name`: it returns `Some(t)` exactly for the string `Name(t)` |
| `Tokens.ToStringLayout` | jlox/Token.java:25-27 | the rendering is the kind name, one space, the lexeme, one space, then `"null"` or the rendered literal, and nothing else |
| `Tokens.FirstWord` | jlox/Token.java:25-27 | the first word of a string is its longest space-free prefix, ended by a space or by the end of the string |
| `Tokens.FirstWordOfWord` | jlox/Token.java:25-27 | the first word of a space-free word followed by a space is that word |
| `Tokens.ToStringNamesKind` | jlox/Token.java:25-27 | the kind can be read back from the rendering: its first word is the kind's name |
| `Tokens.ToStringDeterminesKind` | jlox/Token.java:25-27 | two tokens with equal renderings have the same kind |
| `Tokens.ToStringIgnoresLine` | jlox/Token.java:26 | the rendering does not depend on the line |
| `Tokens.EofRendering` | jlox/Token.java:26 | the end-of-input token renders as `"EOF  null"`, with two spaces, on every line |
| `Scanning.Drive` | jlox/Scanner.java:48-52 | under the assumed step contract the loop ends with `current` exactly at the end of the source, and its final line is at least its first line |
| `Scanning.DriveCalls` | jlox/Scanner.java:48-52 | `scanToken` is called exactly when input remains, at most once per remaining character; the first call is at the starting cursor; every call has `start == current`, is made before the end of the source and has no lower line; call positions strictly increase |
| `Scanning.Resume` | jlox/Scanner.java:48-52 | one pass of the loop body turns the remaining run into its continuation after that call |
| `Scanning.Scanner.constructor` | jlox/Scanner.java:17-42 | a new scanner holds the given source, an empty token list, `start == 0`, `current == 0` and `line == 1` |
| `Scanning.Scanner.ScanTokens` | jlox/Scanner.java:47-55 | on return `isAtEnd()` holds; `current`, `line` and `start` are those the loop reaches; the list is the old list, then the tokens of every call in order, then one EOF token with lexeme `""`, no literal and the final line; the value returned equals the scanner's list at that point |
| `Scanning.Scan` | jlox/Scanner.java:40-55 | constructing a scanner and calling `scanTokens` once returns `ScanAll` |
| `Scanning.ScanAllEndsWithEof` | jlox/Scanner.java:53 | the last token is EOF with empty lexeme, no literal and the loop's final line (at least 1); it renders as `"EOF  null"` |
| `Scanning.DriveAddsNoEof` | jlox/Scanner.java:48-52 | if the step never yields EOF, the loop's tokens contain no EOF |
| `Scanning.ScanAllSingleEof` | jlox/Scanner.java:53-54 | if the step never yields EOF, the appended token is the only EOF of the result |
| `Scanning.DriveAddsNothing` | jlox/Scanner.java:48-52 | if the step never yields a token, the loop appends nothing |
| `Scanning.ScanAllOfSilentStep` | jlox/Scanner.java:47-55 | if the step never yields a token, the result is the EOF token alone, on some line of at least 1 |
| `Scanning.ScanAllOfEmpty` | jlox/Scanner.java:47-55 | on an empty source the result is the EOF token on line 1 |
| `Scanning.DriveLinesOrdered` | jlox/Scanner.java:48-52 | if the step stamps its tokens in order with lines from its start line to its end line, the loop's tokens are in line order, between the first and the final line |
| `Scanning.ScanAllLinesOrdered` | jlox/Scanner.java:48-53 | under the same condition, the lines of the whole result never decrease, start at line 1 or later, and end at the EOF token's line |

## Left out

- jlox/Lox.java is not part of this model. It holds file, standard-input and REPL I/O, the printing of tokens, error messages on stderr, exit codes and the process-wide `hadError` flag.
- The body of `scanToken` is not part of this model, because no file of the repository defines it. Whitespace, newlines, comments, operators, string and number literals and keyword lookup are therefore not modelled. Any property that depends on them (round-tripping the source, maximal munch, keyword matching, error reports) is not stated. The `HashMap`/`Map` imports of jlox/Scanner.java are unused.
- Scanning.Scanner.ScanTokens: proved only for steps that meet the assumed contract `Advances`. When a step does not advance `current`, the Java loop does not terminate; that case is not modelled.
- Scanning.Drive: termination and every stated property are conditional on `Advances`, as above.
- Decoding numeric literals to `double` is not modelled, because it is floating point and is not present in the code.
- Java's `Object.toString()` of a non-null literal is the `render` parameter and is otherwise uninterpreted.
- Java's 32-bit `int` for `start`, `current` and `line` is not modelled; the model uses unbounded integers. A `line` counter overflow would need more than 2^31 newlines.
- `Scanning.Scanner.IsAtEnd` is a predicate, so it cannot change anything. Its meaning, `current >= |source|`, is its body; what it means to the loop is stated through `ScanTokens`.
- `Scanning.Scanner.ScanTokens` requires the class invariant `Valid()`: `0 <= start <= current <= |source|` and `line >= 1`. The constructor establishes it and `ScanTokens` keeps it. A second call on the same scanner is therefore covered for the scanner's own state: its list gains a second EOF token, as in Java. In the model a list returned by the earlier call keeps its contents; in Java it does not (see the next line).
- Scanning.Scanner.ScanTokens: the token list is returned as a `seq` value, so the sharing of the Java `ArrayList` is not modelled. In Java the caller gets the scanner's own list object (jlox/Scanner.java:21, 54): a list returned by one call also shows the tokens a later call appends, and a caller's changes to it show up in the scanner. In the model the returned value stays as it was.
- Tokens.Token: a null `type` or a null `lexeme` is not modelled. The Java constructor (jlox/Token.java:15-20) accepts both, and `toString` then prints `null` for them. The model's `tokenType` and `lexeme` always hold a kind and a string; only the literal may be absent.
- Scanning.Scanner.ScanTokens: lengths and positions count Unicode scalar values, because a Dafny `string` is a sequence of those. Java's `source.length()` (jlox/Scanner.java:64) and `current` count UTF-16 code units, so on text outside the Basic Multilingual Plane (an emoji, say) `current`, `|source|` and the per-character bound of `Scanning.DriveCalls` count different things from the Java fields.
