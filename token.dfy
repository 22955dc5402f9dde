/** One lexeme of Lox source (jlox/Token.java): its kind, the exact text,
    an optional decoded literal and the line it starts on. The Java fields are
    all `final` and the constructor stores its arguments without checking them,
    so a token is an immutable value that any four components make. The literal
    is a Java `Object` that may be `null`: here it is an `Option` of a value of
    the type parameter `L`. */
module Tokens {
  import opened Wrappers
  import opened TokenTypes

  datatype Token<L> = Token(tokenType: TokenType, lexeme: string, literal: Option<L>, line: int)

  /** Java's rendering of a literal: `"null"` for a null reference, and the
      object's own `toString()` otherwise, which is the caller-supplied `render`. */
  function LiteralText<L>(literal: Option<L>, render: L -> string): string {
    match literal
    case None => "null"
    case Some(v) => render(v)
  }

  /** `toString()`: the kind's name, a space, the lexeme, a space, the literal. */
  function ToString<L>(t: Token<L>, render: L -> string): string {
    Name(t.tokenType) + " " + t.lexeme + " " + LiteralText(t.literal, render)
  }

  /** The text before the first space of `s` (all of `s` if it has none). */
  function FirstWord(s: string): (w: string)
    ensures |w| <= |s| && w == s[..|w|]
    ensures ' ' !in w
    ensures |w| < |s| ==> s[|w|] == ' '
  {
    if s == [] || s[0] == ' ' then [] else [s[0]] + FirstWord(s[1..])
  }

  /** The first word of a word followed by a space is that word. */
  lemma {:induction false} FirstWordOfWord(w: string, rest: string)
    requires ' ' !in w
    ensures FirstWord(w + " " + rest) == w
  {
    if w != [] {
      assert (w + " " + rest)[1..] == w[1..] + " " + rest;
      FirstWordOfWord(w[1..], rest);
    }
  }

  /** The rendering starts with the kind's name followed by a space, so the
      kind can be read back from it; the rendering is made of the three
      parts and two spaces, nothing else. */
  lemma ToStringLayout<L>(t: Token<L>, render: L -> string)
    ensures var s := ToString(t, render); var n := |Name(t.tokenType)|;
      |s| == n + 1 + |t.lexeme| + 1 + |LiteralText(t.literal, render)|
      && s[..n] == Name(t.tokenType) && s[n] == ' '
      && s[n + 1..n + 1 + |t.lexeme|] == t.lexeme && s[n + 1 + |t.lexeme|] == ' '
      && s[n + 2 + |t.lexeme|..] == LiteralText(t.literal, render)
  {
  }

  /** The kind is recoverable from the rendering: its first word names it. */
  lemma {:induction false} ToStringNamesKind<L>(t: Token<L>, render: L -> string)
    ensures FromName(FirstWord(ToString(t, render))) == Some(t.tokenType)
  {
    NameIsWord(t.tokenType);
    var rest := t.lexeme + " " + LiteralText(t.literal, render);
    assert ToString(t, render) == Name(t.tokenType) + " " + rest;
    FirstWordOfWord(Name(t.tokenType), rest);
    NameRoundTrip(t.tokenType, Name(t.tokenType));
  }

  /** Two tokens with the same rendering have the same kind. */
  lemma ToStringDeterminesKind<L>(a: Token<L>, b: Token<L>, render: L -> string)
    requires ToString(a, render) == ToString(b, render)
    ensures a.tokenType == b.tokenType
  {
    ToStringNamesKind(a, render);
    ToStringNamesKind(b, render);
  }

  /** The rendering does not show the line. */
  lemma ToStringIgnoresLine<L>(t: Token<L>, line: int, render: L -> string)
    ensures ToString(t.(line := line), render) == ToString(t, render)
  {
  }

  /** The token that marks the end of input: kind EOF, empty lexeme, no literal. */
  function EofToken<L>(line: int): Token<L> {
    Token(EOF, "", None, line)
  }

  /** The end-of-input token renders as "EOF  null", two spaces around the
      empty lexeme, whatever its line. */
  lemma EofRendering<L>(line: int, render: L -> string)
    ensures ToString(EofToken<L>(line), render) == "EOF  null"
  {
  }
}
