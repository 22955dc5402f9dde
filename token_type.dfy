/** The closed set of token kinds of the Lox language (jlox/TokenType.java).
    Variant names are the Java enum constants verbatim, including the
    spelling RIGHT_BRANCE, because a token's rendering shows its kind's name. */
module TokenTypes {
  import opened Wrappers

  datatype TokenType =
    // Single-character tokens.
    | LEFT_PAREN | RIGHT_PAREN | LEFT_BRACE | RIGHT_BRANCE
    | COMMA | DOT | MINUS | PLUS | SEMICOLON | SLASH | STAR
    // One or two character tokens.
    | BANG | BANG_EQUAL
    | EQUAL | EQUAL_EQUAL
    | GREATER | GREATER_EQUAL
    | LESS | LESS_EQUAL
    // Literals.
    | IDENTIFIER | STRING | NUMBER
    // Keywords.
    | AND | CLASS | ELSE | FALSE | FUN | FOR | IF | NIL | OR
    | PRINT | RETURN | SUPER | THIS | TRUE | VAR | WHILE
    // End of input.
    | EOF

  /** The number of kinds the enum declares. */
  const KindCount := 39

  /** The groups the declaration separates its constants into. */
  datatype Group = SingleChar | OneOrTwoChar | Literal | Keyword | EndOfInput

  /** Position of a kind in the declaration (Java's `ordinal()`). */
  function Ordinal(t: TokenType): (n: nat)
    ensures n < KindCount
  {
    match t
    case LEFT_PAREN => 0
    case RIGHT_PAREN => 1
    case LEFT_BRACE => 2
    case RIGHT_BRANCE => 3
    case COMMA => 4
    case DOT => 5
    case MINUS => 6
    case PLUS => 7
    case SEMICOLON => 8
    case SLASH => 9
    case STAR => 10
    case BANG => 11
    case BANG_EQUAL => 12
    case EQUAL => 13
    case EQUAL_EQUAL => 14
    case GREATER => 15
    case GREATER_EQUAL => 16
    case LESS => 17
    case LESS_EQUAL => 18
    case IDENTIFIER => 19
    case STRING => 20
    case NUMBER => 21
    case AND => 22
    case CLASS => 23
    case ELSE => 24
    case FALSE => 25
    case FUN => 26
    case FOR => 27
    case IF => 28
    case NIL => 29
    case OR => 30
    case PRINT => 31
    case RETURN => 32
    case SUPER => 33
    case THIS => 34
    case TRUE => 35
    case VAR => 36
    case WHILE => 37
    case EOF => 38
  }

  /** The kind at a position of the declaration (Java's `values()[n]`);
      the table is split by group, at the bounds `First` and `Bound` give,
      and the keywords in two halves, so that each part is checked on its own. */
  function FromOrdinal(n: nat): (t: TokenType)
    requires n < KindCount
    ensures Ordinal(t) == n
  {
    if n < 11 then FromOrdinalSingleChar(n)
    else if n < 19 then FromOrdinalOneOrTwoChar(n)
    else if n < 22 then FromOrdinalLiteral(n)
    else if n < 30 then FromOrdinalFirstKeywords(n)
    else if n < 38 then FromOrdinalLastKeywords(n)
    else EOF
  }

  function FromOrdinalSingleChar(n: nat): (t: TokenType)
    requires n < 11
    ensures Ordinal(t) == n
  {
    match n
    case 0 => LEFT_PAREN
    case 1 => RIGHT_PAREN
    case 2 => LEFT_BRACE
    case 3 => RIGHT_BRANCE
    case 4 => COMMA
    case 5 => DOT
    case 6 => MINUS
    case 7 => PLUS
    case 8 => SEMICOLON
    case 9 => SLASH
    case 10 => STAR
  }

  function FromOrdinalOneOrTwoChar(n: nat): (t: TokenType)
    requires 11 <= n < 19
    ensures Ordinal(t) == n
  {
    match n
    case 11 => BANG
    case 12 => BANG_EQUAL
    case 13 => EQUAL
    case 14 => EQUAL_EQUAL
    case 15 => GREATER
    case 16 => GREATER_EQUAL
    case 17 => LESS
    case 18 => LESS_EQUAL
  }

  function FromOrdinalLiteral(n: nat): (t: TokenType)
    requires 19 <= n < 22
    ensures Ordinal(t) == n
  {
    match n
    case 19 => IDENTIFIER
    case 20 => STRING
    case 21 => NUMBER
  }

  /** Keywords AND to NIL. */
  function FromOrdinalFirstKeywords(n: nat): (t: TokenType)
    requires 22 <= n < 30
    ensures Ordinal(t) == n
  {
    match n
    case 22 => AND
    case 23 => CLASS
    case 24 => ELSE
    case 25 => FALSE
    case 26 => FUN
    case 27 => FOR
    case 28 => IF
    case 29 => NIL
  }

  /** Keywords OR to WHILE. */
  function FromOrdinalLastKeywords(n: nat): (t: TokenType)
    requires 30 <= n < 38
    ensures Ordinal(t) == n
  {
    match n
    case 30 => OR
    case 31 => PRINT
    case 32 => RETURN
    case 33 => SUPER
    case 34 => THIS
    case 35 => TRUE
    case 36 => VAR
    case 37 => WHILE
  }

  /** Every kind, in declaration order (Java's `values()`): the list names each
      kind exactly once, at its ordinal. */
  function AllTypes(): (r: seq<TokenType>)
    ensures |r| == KindCount
    ensures forall i :: 0 <= i < |r| ==> Ordinal(r[i]) == i
    ensures forall t :: r[Ordinal(t)] == t
  {
    seq(KindCount, n requires 0 <= n < KindCount => FromOrdinal(n))
  }

  /** The 39 kinds are pairwise distinct, and there are no others. */
  lemma KindsClosedAndDistinct()
    ensures forall t :: t in AllTypes()
    ensures forall i, j :: 0 <= i < j < KindCount ==> AllTypes()[i] != AllTypes()[j]
  {
    forall t ensures t in AllTypes() {
      assert AllTypes()[Ordinal(t)] == t;
    }
  }

  /** The declaration group a kind belongs to. */
  function GroupOf(t: TokenType): Group {
    match t
    case LEFT_PAREN | RIGHT_PAREN | LEFT_BRACE | RIGHT_BRANCE
      | COMMA | DOT | MINUS | PLUS | SEMICOLON | SLASH | STAR => SingleChar
    case BANG | BANG_EQUAL | EQUAL | EQUAL_EQUAL
      | GREATER | GREATER_EQUAL | LESS | LESS_EQUAL => OneOrTwoChar
    case IDENTIFIER | STRING | NUMBER => Literal
    case AND | CLASS | ELSE | FALSE | FUN | FOR | IF | NIL | OR
      | PRINT | RETURN | SUPER | THIS | TRUE | VAR | WHILE => Keyword
    case EOF => EndOfInput
  }

  predicate IsSingleChar(t: TokenType) { GroupOf(t) == SingleChar }
  predicate IsOneOrTwoChar(t: TokenType) { GroupOf(t) == OneOrTwoChar }
  predicate IsLiteral(t: TokenType) { GroupOf(t) == Literal }
  predicate IsKeyword(t: TokenType) { GroupOf(t) == Keyword }
  predicate IsEof(t: TokenType) { GroupOf(t) == EndOfInput }

  /** The first ordinal of a group's run of constants in the declaration. */
  function First(g: Group): nat {
    match g
    case SingleChar => 0
    case OneOrTwoChar => 11
    case Literal => 19
    case Keyword => 22
    case EndOfInput => 38
  }

  /** One past the last ordinal of a group's run of constants. */
  function Bound(g: Group): nat {
    match g
    case SingleChar => 11
    case OneOrTwoChar => 19
    case Literal => 22
    case Keyword => 38
    case EndOfInput => KindCount
  }

  /** Each group is one contiguous run of the declaration. */
  lemma GroupIsContiguous(t: TokenType, g: Group)
    ensures GroupOf(t) == g <==> First(g) <= Ordinal(t) < Bound(g)
  {
  }

  /** The members of each group, in declaration order; a kind is listed
      exactly when it belongs to the group, and only once. */
  function Members(g: Group): (r: seq<TokenType>)
    ensures forall t :: t in r <==> GroupOf(t) == g
    ensures forall i, j :: 0 <= i < j < |r| ==> r[i] != r[j]
  {
    var r := AllTypes()[First(g)..Bound(g)];
    assert forall t :: t in r <==> GroupOf(t) == g by {
      forall t ensures t in r <==> GroupOf(t) == g {
        GroupIsContiguous(t, g);
        if GroupOf(t) == g {
          assert r[Ordinal(t) - First(g)] == t;
        }
      }
    }
    r
  }

  /** The groups follow one another in the declaration, so together they are
      the whole enum and no kind is in two of them; their sizes are
      11, 8, 3, 16 and 1. */
  lemma GroupsPartitionDeclaration()
    ensures AllTypes() == Members(SingleChar) + Members(OneOrTwoChar) + Members(Literal)
                          + Members(Keyword) + Members(EndOfInput)
    ensures |Members(SingleChar)| == 11 && |Members(OneOrTwoChar)| == 8
    ensures |Members(Literal)| == 3 && |Members(Keyword)| == 16 && |Members(EndOfInput)| == 1
  {
    var s := AllTypes();
    assert s == s[..11] + s[11..19] + s[19..22] + s[22..38] + s[38..];
  }

  /** The single-character group runs from LEFT_PAREN to STAR, with the
      declared spelling RIGHT_BRANCE fourth. */
  lemma SingleCharBoundaries()
    ensures Members(SingleChar)[0] == LEFT_PAREN && Members(SingleChar)[3] == RIGHT_BRANCE
    ensures Members(SingleChar)[10] == STAR
  {
    var s := AllTypes();
    assert Members(SingleChar) == s[..11];
    assert s[0] == FromOrdinal(0) && s[3] == FromOrdinal(3) && s[10] == FromOrdinal(10);
  }

  /** The literal kinds are IDENTIFIER, STRING and NUMBER, in that order. */
  lemma LiteralMembers()
    ensures Members(Literal) == [IDENTIFIER, STRING, NUMBER]
  {
    var s := AllTypes();
    assert Members(Literal) == s[19..22];
    assert s[19] == FromOrdinal(19) && s[20] == FromOrdinal(20) && s[21] == FromOrdinal(21);
  }

  /** The keywords run from AND to WHILE, and EOF stands alone after them. */
  lemma KeywordBoundaries()
    ensures Members(Keyword)[0] == AND && Members(Keyword)[15] == WHILE
    ensures Members(EndOfInput) == [EOF]
  {
    var s := AllTypes();
    assert Members(Keyword) == s[22..38] && Members(EndOfInput) == s[38..];
    assert s[22] == FromOrdinal(22) && s[37] == FromOrdinal(37) && s[38] == FromOrdinal(38);
  }

  /** EOF is the one end-of-input kind. */
  lemma SingleEndOfInput(t: TokenType)
    ensures IsEof(t) <==> t == EOF
  {
  }

  /** The two-character partner `X_EQUAL` of a one-character operator `X`. */
  function EqualForm(t: TokenType): (r: Option<TokenType>)
    ensures r.Some? ==> IsOneOrTwoChar(t) && IsOneOrTwoChar(r.value)
    ensures r.Some? ==> Name(r.value) == Name(t) + "_EQUAL"
  {
    match t
    case BANG => Some(BANG_EQUAL)
    case EQUAL => Some(EQUAL_EQUAL)
    case GREATER => Some(GREATER_EQUAL)
    case LESS => Some(LESS_EQUAL)
    case _ => None
  }

  /** The one-or-two-character group is exactly four pairs `X` / `X_EQUAL`:
      each member is a base operator or the partner of one. */
  lemma OneOrTwoCharArePairs(t: TokenType)
    ensures IsOneOrTwoChar(t) <==> EqualForm(t).Some? || exists b :: EqualForm(b) == Some(t)
    ensures EqualForm(t).Some? ==> EqualForm(EqualForm(t).value).None?
  {
    match t
    case BANG_EQUAL => assert EqualForm(BANG) == Some(t);
    case EQUAL_EQUAL => assert EqualForm(EQUAL) == Some(t);
    case GREATER_EQUAL => assert EqualForm(GREATER) == Some(t);
    case LESS_EQUAL => assert EqualForm(LESS) == Some(t);
    case _ =>
  }

  /** The constant's name as Java renders it (`name()`). */
  function Name(t: TokenType): string {
    match t
    case LEFT_PAREN => "LEFT_PAREN"
    case RIGHT_PAREN => "RIGHT_PAREN"
    case LEFT_BRACE => "LEFT_BRACE"
    case RIGHT_BRANCE => "RIGHT_BRANCE"
    case COMMA => "COMMA"
    case DOT => "DOT"
    case MINUS => "MINUS"
    case PLUS => "PLUS"
    case SEMICOLON => "SEMICOLON"
    case SLASH => "SLASH"
    case STAR => "STAR"
    case BANG => "BANG"
    case BANG_EQUAL => "BANG_EQUAL"
    case EQUAL => "EQUAL"
    case EQUAL_EQUAL => "EQUAL_EQUAL"
    case GREATER => "GREATER"
    case GREATER_EQUAL => "GREATER_EQUAL"
    case LESS => "LESS"
    case LESS_EQUAL => "LESS_EQUAL"
    case IDENTIFIER => "IDENTIFIER"
    case STRING => "STRING"
    case NUMBER => "NUMBER"
    case AND => "AND"
    case CLASS => "CLASS"
    case ELSE => "ELSE"
    case FALSE => "FALSE"
    case FUN => "FUN"
    case FOR => "FOR"
    case IF => "IF"
    case NIL => "NIL"
    case OR => "OR"
    case PRINT => "PRINT"
    case RETURN => "RETURN"
    case SUPER => "SUPER"
    case THIS => "THIS"
    case TRUE => "TRUE"
    case VAR => "VAR"
    case WHILE => "WHILE"
    case EOF => "EOF"
  }

  /** The kind a name denotes, if any (Java's `valueOf`, with `None` for the
      names it rejects). It looks the candidate up by the name's length,
      first and last character and then compares the whole name, rather
      than searching `AllTypes()`: a search makes every proof about it unfold
      `Name` on a symbolic kind, which the verifier only manages with the
      cases split by group, as the helper lemmas below do. */
  function FromName(s: string): (r: Option<TokenType>)
    ensures r.Some? ==> Name(r.value) == s
  {
    if s == [] then None
    else
      var k := KindOfShape(|s|, s[0], s[|s| - 1]);
      if k.Some? && Name(k.value) == s then k else None
  }

  /** The only kind whose name has this length, first and last character:
      these three already tell the 39 names apart. */
  function KindOfShape(n: int, first: char, last: char): Option<TokenType> {
    if n == 10 && first == 'L' && last == 'N' then Some(LEFT_PAREN)
    else if n == 11 && first == 'R' && last == 'N' then Some(RIGHT_PAREN)
    else if n == 10 && first == 'L' && last == 'E' then Some(LEFT_BRACE)
    else if n == 12 && first == 'R' && last == 'E' then Some(RIGHT_BRANCE)
    else if n == 5 && first == 'C' && last == 'A' then Some(COMMA)
    else if n == 3 && first == 'D' && last == 'T' then Some(DOT)
    else if n == 5 && first == 'M' && last == 'S' then Some(MINUS)
    else if n == 4 && first == 'P' && last == 'S' then Some(PLUS)
    else if n == 9 && first == 'S' && last == 'N' then Some(SEMICOLON)
    else if n == 5 && first == 'S' && last == 'H' then Some(SLASH)
    else if n == 4 && first == 'S' && last == 'R' then Some(STAR)
    else if n == 4 && first == 'B' && last == 'G' then Some(BANG)
    else if n == 10 && first == 'B' && last == 'L' then Some(BANG_EQUAL)
    else if n == 5 && first == 'E' && last == 'L' then Some(EQUAL)
    else if n == 11 && first == 'E' && last == 'L' then Some(EQUAL_EQUAL)
    else if n == 7 && first == 'G' && last == 'R' then Some(GREATER)
    else if n == 13 && first == 'G' && last == 'L' then Some(GREATER_EQUAL)
    else if n == 4 && first == 'L' && last == 'S' then Some(LESS)
    else if n == 10 && first == 'L' && last == 'L' then Some(LESS_EQUAL)
    else if n == 10 && first == 'I' && last == 'R' then Some(IDENTIFIER)
    else if n == 6 && first == 'S' && last == 'G' then Some(STRING)
    else if n == 6 && first == 'N' && last == 'R' then Some(NUMBER)
    else if n == 3 && first == 'A' && last == 'D' then Some(AND)
    else if n == 5 && first == 'C' && last == 'S' then Some(CLASS)
    else if n == 4 && first == 'E' && last == 'E' then Some(ELSE)
    else if n == 5 && first == 'F' && last == 'E' then Some(FALSE)
    else if n == 3 && first == 'F' && last == 'N' then Some(FUN)
    else if n == 3 && first == 'F' && last == 'R' then Some(FOR)
    else if n == 2 && first == 'I' && last == 'F' then Some(IF)
    else if n == 3 && first == 'N' && last == 'L' then Some(NIL)
    else if n == 2 && first == 'O' && last == 'R' then Some(OR)
    else if n == 5 && first == 'P' && last == 'T' then Some(PRINT)
    else if n == 6 && first == 'R' && last == 'N' then Some(RETURN)
    else if n == 5 && first == 'S' && last == 'R' then Some(SUPER)
    else if n == 4 && first == 'T' && last == 'S' then Some(THIS)
    else if n == 4 && first == 'T' && last == 'E' then Some(TRUE)
    else if n == 3 && first == 'V' && last == 'R' then Some(VAR)
    else if n == 5 && first == 'W' && last == 'E' then Some(WHILE)
    else if n == 3 && first == 'E' && last == 'F' then Some(EOF)
    else None
  }

  /** A name is non-empty and never contains a space. (The cases are split
      by group so that each part is checked on its own.) */
  lemma NameIsWord(t: TokenType)
    ensures Name(t) != []
    ensures ' ' !in Name(t)
  {
    match GroupOf(t)
    case SingleChar => NameIsWordInSingleChar(t);
    case OneOrTwoChar => NameIsWordInOneOrTwoChar(t);
    case Literal => NameIsWordInLiteral(t);
    case Keyword => NameIsWordInKeyword(t);
    case EndOfInput => NameIsWordInEndOfInput(t);
  }

  lemma NameIsWordInSingleChar(t: TokenType)
    requires GroupOf(t) == SingleChar
    ensures Name(t) != [] && ' ' !in Name(t)
  {
  }

  lemma NameIsWordInOneOrTwoChar(t: TokenType)
    requires GroupOf(t) == OneOrTwoChar
    ensures Name(t) != [] && ' ' !in Name(t)
  {
  }

  lemma NameIsWordInLiteral(t: TokenType)
    requires GroupOf(t) == Literal
    ensures Name(t) != [] && ' ' !in Name(t)
  {
  }

  lemma NameIsWordInKeyword(t: TokenType)
    requires GroupOf(t) == Keyword
    ensures Name(t) != [] && ' ' !in Name(t)
  {
  }

  lemma NameIsWordInEndOfInput(t: TokenType)
    requires GroupOf(t) == EndOfInput
    ensures Name(t) != [] && ' ' !in Name(t)
  {
  }

  /** `FromName` inverts `Name`, in both directions. */
  lemma NameRoundTrip(t: TokenType, s: string)
    ensures FromName(Name(t)) == Some(t)
    ensures FromName(s) == Some(t) <==> s == Name(t)
  {
    match GroupOf(t)
    case SingleChar => ShapeNamesInSingleChar(t);
    case OneOrTwoChar => ShapeNamesInOneOrTwoChar(t);
    case Literal => ShapeNamesInLiteral(t);
    case Keyword => ShapeNamesInKeyword(t);
    case EndOfInput => ShapeNamesInEndOfInput(t);
  }

  lemma ShapeNamesInSingleChar(t: TokenType)
    requires GroupOf(t) == SingleChar
    ensures var n := Name(t); n != [] && KindOfShape(|n|, n[0], n[|n| - 1]) == Some(t)
  {
  }

  lemma ShapeNamesInOneOrTwoChar(t: TokenType)
    requires GroupOf(t) == OneOrTwoChar
    ensures var n := Name(t); n != [] && KindOfShape(|n|, n[0], n[|n| - 1]) == Some(t)
  {
  }

  lemma ShapeNamesInLiteral(t: TokenType)
    requires GroupOf(t) == Literal
    ensures var n := Name(t); n != [] && KindOfShape(|n|, n[0], n[|n| - 1]) == Some(t)
  {
  }

  lemma ShapeNamesInKeyword(t: TokenType)
    requires GroupOf(t) == Keyword
    ensures var n := Name(t); n != [] && KindOfShape(|n|, n[0], n[|n| - 1]) == Some(t)
  {
  }

  lemma ShapeNamesInEndOfInput(t: TokenType)
    requires GroupOf(t) == EndOfInput
    ensures var n := Name(t); n != [] && KindOfShape(|n|, n[0], n[|n| - 1]) == Some(t)
  {
  }

  /** Distinct kinds have distinct names. */
  lemma NameInjective(a: TokenType, b: TokenType)
    ensures Name(a) == Name(b) ==> a == b
  {
    NameRoundTrip(a, Name(a));
    NameRoundTrip(b, Name(b));
  }
}
