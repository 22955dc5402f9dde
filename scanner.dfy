/** The scanner's driver (jlox/Scanner.java): a cursor over an immutable
    source string that repeatedly marks the start of the next lexeme and
    scans one, then appends the end-of-input token.

    The per-lexeme step `scanToken` is called by the source but is not part
    of this model: its rules (whitespace, comments, operators, literals,
    keywords) are not available. It is a parameter of the driver, of type
    `Step`, and everything proved about the driver rests on the ASSUMED
    contract `Advances` below and on nothing else about the step. */
module Scanning {
  import opened Wrappers
  import opened TokenTypes
  import opened Tokens

  /** What `scanToken` sees when it is called: the source and the three
      cursor fields. */
  datatype Cursor = Cursor(source: string, start: int, current: int, line: int)

  /** What one `scanToken` call does: the new `current` and `line`, and the
      tokens it appends to the scanner's list, in order. */
  datatype Advance<L> = Advance(current: int, line: int, added: seq<Token<L>>)

  /** The per-lexeme step, defined at least on the cursors it is called with. */
  type Step<L> = Cursor --> Advance<L>

  /** The state in which the driver calls `scanToken`: `start` has just been
      set to `current`, and input remains. */
  predicate OnEntry(c: Cursor) {
    0 <= c.start == c.current < |c.source|
  }

  /** ASSUMED contract of `scanToken` (its body is not part of this model):
      called on an entry cursor it is defined, consumes at least one
      character without running past the end of the source, and never
      moves the line counter backwards. It only appends to the token list;
      it does not touch `start`. */
  ghost predicate Advances<L>(scanToken: Step<L>) {
    forall c: Cursor :: OnEntry(c) ==>
      scanToken.requires(c)
      && c.current < scanToken(c).current <= |c.source|
      && c.line <= scanToken(c).line
  }

  /** The outcome of running the driver loop from a cursor position: where
      `current` and `line` end up, the tokens appended, and the cursor seen
      by each `scanToken` call, in call order. */
  datatype Run<L> = Run(current: int, line: int, added: seq<Token<L>>, calls: seq<Cursor>)

  /** The driver loop `while (!isAtEnd()) { start = current; scanToken(); }`
      as a function of the source, `current` and `line`. Under the assumed
      contract it stops exactly at the end of the source and the line never
      decreases. */
  function Drive<L>(scanToken: Step<L>, source: string, current: int, line: int): (r: Run<L>)
    requires Advances(scanToken)
    requires 0 <= current <= |source|
    ensures r.current == |source|
    ensures r.line >= line
    decreases |source| - current
  {
    if current >= |source| then Run(current, line, [], [])
    else
      var c := Cursor(source, current, current, line);
      var a := scanToken(c);
      var rest := Drive(scanToken, source, a.current, a.line);
      Run(rest.current, rest.line, a.added + rest.added, [c] + rest.calls)
  }

  /** The calls the loop makes: none exactly when it starts at the end, at
      most one per remaining character (so the loop is bounded by the
      length of the source), the first at the starting cursor, each on an
      entry cursor (`start == current`, not at end) of the same source and
      at a strictly later position than the one before. */
  lemma {:induction false} DriveCalls<L>(scanToken: Step<L>, source: string, current: int, line: int)
    requires Advances(scanToken)
    requires 0 <= current <= |source|
    ensures var calls := Drive(scanToken, source, current, line).calls;
      (calls == [] <==> current == |source|)
      && |calls| <= |source| - current
      && (calls != [] ==> calls[0] == Cursor(source, current, current, line))
      && (forall i :: 0 <= i < |calls| ==>
            OnEntry(calls[i]) && calls[i].source == source
            && current <= calls[i].current && line <= calls[i].line)
      && (forall i :: 0 < i < |calls| ==> calls[i - 1].current < calls[i].current)
    decreases |source| - current
  {
    if current < |source| {
      var c := Cursor(source, current, current, line);
      assert OnEntry(c);
      var a := scanToken(c);
      DriveCalls(scanToken, source, a.current, a.line);
      var rest := Drive(scanToken, source, a.current, a.line).calls;
      var calls := Drive(scanToken, source, current, line).calls;
      assert calls == [c] + rest;
      forall i | 0 < i < |calls| ensures calls[i] == rest[i - 1] {}
    }
  }

  /** What `scanTokens` returns for a freshly constructed scanner: the
      tokens of the loop run from position 0 on line 1, then the
      end-of-input token on the line the loop stopped at. */
  function ScanAll<L>(scanToken: Step<L>, source: string): seq<Token<L>>
    requires Advances(scanToken)
  {
    var r := Drive(scanToken, source, 0, 1);
    r.added + [EofToken(r.line)]
  }

  /** The result ends with exactly one appended token: EOF with an empty
      lexeme, no literal, and the final line, which is at least 1; it
      renders as "EOF  null". */
  lemma ScanAllEndsWithEof<L>(scanToken: Step<L>, source: string, render: L -> string)
    requires Advances(scanToken)
    ensures var s := ScanAll(scanToken, source);
      |s| >= 1 && s[|s| - 1].tokenType == EOF && s[|s| - 1].lexeme == ""
      && s[|s| - 1].literal == None && s[|s| - 1].line == Drive(scanToken, source, 0, 1).line
      && s[|s| - 1].line >= 1 && ToString(s[|s| - 1], render) == "EOF  null"
  {
  }

  /** No token of the list is an end-of-input token. */
  predicate FreeOfEof<L>(s: seq<Token<L>>) {
    forall k :: 0 <= k < |s| ==> s[k].tokenType != EOF
  }

  /** The step never yields an end-of-input token itself. */
  ghost predicate NeverEmitsEof<L>(scanToken: Step<L>) {
    forall c: Cursor :: OnEntry(c) && scanToken.requires(c) ==> FreeOfEof(scanToken(c).added)
  }

  /** The step never yields any token (as on input made only of blanks and
      comments). */
  ghost predicate NeverEmits<L>(scanToken: Step<L>) {
    forall c: Cursor :: OnEntry(c) && scanToken.requires(c) ==> scanToken(c).added == []
  }

  lemma {:induction false} DriveAddsNoEof<L>(scanToken: Step<L>, source: string, current: int, line: int)
    requires Advances(scanToken) && NeverEmitsEof(scanToken)
    requires 0 <= current <= |source|
    ensures FreeOfEof(Drive(scanToken, source, current, line).added)
    decreases |source| - current
  {
    if current < |source| {
      var c := Cursor(source, current, current, line);
      assert OnEntry(c);
      var a := scanToken(c);
      var rest := Drive(scanToken, source, a.current, a.line).added;
      DriveAddsNoEof(scanToken, source, a.current, a.line);
      assert FreeOfEof(a.added);
      assert Drive(scanToken, source, current, line).added == a.added + rest;
      forall k | 0 <= k < |a.added + rest| ensures (a.added + rest)[k].tokenType != EOF {
        if k >= |a.added| {
          assert (a.added + rest)[k] == rest[k - |a.added|];
        }
      }
    }
  }

  /** If the step never yields EOF, the end-of-input token is the only
      EOF in the result. */
  lemma ScanAllSingleEof<L>(scanToken: Step<L>, source: string)
    requires Advances(scanToken) && NeverEmitsEof(scanToken)
    ensures var s := ScanAll(scanToken, source);
      forall k :: 0 <= k < |s| ==> (s[k].tokenType == EOF <==> k == |s| - 1)
  {
    DriveAddsNoEof(scanToken, source, 0, 1);
    var r := Drive(scanToken, source, 0, 1);
    var s := ScanAll(scanToken, source);
    assert s == r.added + [EofToken(r.line)];
    forall k | 0 <= k < |s| ensures s[k].tokenType == EOF <==> k == |s| - 1 {
      if k < |r.added| {
        assert s[k] == r.added[k];
      }
    }
  }

  lemma {:induction false} DriveAddsNothing<L>(scanToken: Step<L>, source: string, current: int, line: int)
    requires Advances(scanToken) && NeverEmits(scanToken)
    requires 0 <= current <= |source|
    ensures Drive(scanToken, source, current, line).added == []
    decreases |source| - current
  {
    if current < |source| {
      var a := scanToken(Cursor(source, current, current, line));
      DriveAddsNothing(scanToken, source, a.current, a.line);
    }
  }

  /** If the step yields no tokens, the result is the end-of-input token alone. */
  lemma ScanAllOfSilentStep<L>(scanToken: Step<L>, source: string)
    requires Advances(scanToken) && NeverEmits(scanToken)
    ensures exists line :: line >= 1 && ScanAll(scanToken, source) == [EofToken(line)]
  {
    DriveAddsNothing(scanToken, source, 0, 1);
    assert ScanAll(scanToken, source) == [EofToken(Drive(scanToken, source, 0, 1).line)];
  }

  /** The lines of the tokens lie between `lo` and `hi` and never decrease. */
  predicate LinesOrdered<L>(s: seq<Token<L>>, lo: int, hi: int) {
    (forall i :: 0 <= i < |s| ==> lo <= s[i].line <= hi)
    && (forall i, j :: 0 <= i < j < |s| ==> s[i].line <= s[j].line)
  }

  /** The step stamps the tokens it yields with lines from the one it
      started on to the one it stopped on, in order. */
  ghost predicate StampsLines<L>(scanToken: Step<L>) {
    forall c: Cursor :: OnEntry(c) && scanToken.requires(c) ==>
      LinesOrdered(scanToken(c).added, c.line, scanToken(c).line)
  }

  lemma {:induction false} DriveLinesOrdered<L>(scanToken: Step<L>, source: string, current: int, line: int)
    requires Advances(scanToken) && StampsLines(scanToken)
    requires 0 <= current <= |source|
    ensures var r := Drive(scanToken, source, current, line); LinesOrdered(r.added, line, r.line)
    decreases |source| - current
  {
    if current < |source| {
      var c := Cursor(source, current, current, line);
      assert OnEntry(c);
      var a := scanToken(c);
      var rest := Drive(scanToken, source, a.current, a.line);
      DriveLinesOrdered(scanToken, source, a.current, a.line);
      assert LinesOrdered(a.added, line, a.line);
      var s := a.added + rest.added;
      assert Drive(scanToken, source, current, line).added == s;
      forall i | 0 <= i < |s| ensures line <= s[i].line <= rest.line {
        if i >= |a.added| { assert s[i] == rest.added[i - |a.added|]; }
      }
      forall i, j | 0 <= i < j < |s| ensures s[i].line <= s[j].line {
        if j < |a.added| {
        } else if i >= |a.added| {
          assert s[i] == rest.added[i - |a.added|] && s[j] == rest.added[j - |a.added|];
        } else {
          assert s[j] == rest.added[j - |a.added|];
        }
      }
    }
  }

  /** If the step stamps lines in order, the lines of the whole result never
      decrease, start at line 1 or later and end with the EOF token's line. */
  lemma ScanAllLinesOrdered<L>(scanToken: Step<L>, source: string)
    requires Advances(scanToken) && StampsLines(scanToken)
    ensures var s := ScanAll(scanToken, source); LinesOrdered(s, 1, s[|s| - 1].line)
  {
    DriveLinesOrdered(scanToken, source, 0, 1);
    var r := Drive(scanToken, source, 0, 1);
    var s := ScanAll(scanToken, source);
    assert s == r.added + [EofToken(r.line)];
    forall i | 0 <= i < |s| - 1 ensures s[i] == r.added[i] {}
  }

  /** On an empty source the loop body never runs and the result is the
      end-of-input token on line 1. */
  lemma ScanAllOfEmpty<L>(scanToken: Step<L>)
    requires Advances(scanToken)
    ensures ScanAll(scanToken, "") == [EofToken(1)]
  {
  }

  /** `whole` is the run that `done` and `calls` are a prefix of, and
      `rest` is what remains of it. */
  ghost predicate Continues<L>(whole: Run<L>, done: seq<Token<L>>, calls: seq<Cursor>, rest: Run<L>) {
    whole.added == done + rest.added && whole.line == rest.line && whole.calls == calls + rest.calls
  }

  /** One pass of the loop keeps the remaining run a continuation of the
      whole run. */
  lemma Resume<L>(scanToken: Step<L>, source: string, current: int, line: int,
                  whole: Run<L>, done: seq<Token<L>>, calls: seq<Cursor>)
    requires Advances(scanToken)
    requires 0 <= current < |source|
    requires Continues(whole, done, calls, Drive(scanToken, source, current, line))
    ensures var c := Cursor(source, current, current, line); var a := scanToken(c);
      Continues(whole, done + a.added, calls + [c], Drive(scanToken, source, a.current, a.line))
  {
  }

  class Scanner<L> {
    /** The source text; never reassigned. */
    const source: string
    /** The tokens found so far (the Java field `token`). */
    var tokens: seq<Token<L>>
    /** The index of the first character of the lexeme being scanned. */
    var start: int
    /** The index of the character being scanned. */
    var current: int
    /** The current line of the source. */
    var line: int

    /** The cursor stays within the source and the line count starts at 1. */
    ghost predicate Valid()
      reads this
    {
      0 <= start <= current <= |source| && line >= 1
    }

    constructor (source: string)
      ensures Valid()
      ensures this.source == source && tokens == []
      ensures start == 0 && current == 0 && line == 1
    {
      this.source := source;
      tokens := [];
      start := 0;
      current := 0;
      line := 1;
    }

    /** `isAtEnd()`: true once every character has been scanned. */
    predicate IsAtEnd()
      reads this
    {
      current >= |source|
    }

    /** `scanTokens()`: runs the loop with the given step, then appends the
        end-of-input token on the final line and returns the contents of
        the scanner's list, as a value (Java hands back the list object
        itself, which this model does not share). The tokens already in the list keep their place and order;
        `start` is left where the last call found it. */
    method ScanTokens(scanToken: Step<L>) returns (result: seq<Token<L>>)
      requires Valid() && Advances(scanToken)
      modifies this
      ensures Valid() && IsAtEnd()
      ensures var r := Drive(scanToken, source, old(current), old(line));
        current == r.current && line == r.line
        && start == (if r.calls == [] then old(start) else r.calls[|r.calls| - 1].start)
        && tokens == old(tokens) + r.added + [EofToken(r.line)]
      ensures result == tokens
    {
      ghost var whole := Drive(scanToken, source, current, line);
      ghost var done: seq<Token<L>> := [];
      ghost var calls: seq<Cursor> := [];
      while !IsAtEnd()
        invariant Valid()
        invariant tokens == old(tokens) + done
        invariant Continues(whole, done, calls, Drive(scanToken, source, current, line))
        invariant start == if calls == [] then old(start) else calls[|calls| - 1].start
        decreases |source| - current
      {
        Resume(scanToken, source, current, line, whole, done, calls);
        start := current;
        var c := Cursor(source, start, current, line);
        var a := scanToken(c);
        current, line := a.current, a.line;
        tokens := tokens + a.added;
        done := done + a.added;
        calls := calls + [c];
      }
      tokens := tokens + [EofToken(line)];
      result := tokens;
    }
  }

  /** Constructing a scanner over `source` and calling `scanTokens` once
      yields `ScanAll`. */
  method Scan<L>(source: string, scanToken: Step<L>) returns (tokens: seq<Token<L>>)
    requires Advances(scanToken)
    ensures tokens == ScanAll(scanToken, source)
  {
    var scanner := new Scanner<L>(source);
    tokens := scanner.ScanTokens(scanToken);
  }
}
