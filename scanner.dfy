/** The line scanner: lines of a build file to tokens. */
module Scanner {
  import opened Tokens

  /** ASCII letters and digits and the seven punctuation marks allowed inside a STRING. */
  predicate IsValidCharacter(c: char) {
    ('a' <= c <= 'z') || ('A' <= c <= 'Z') || ('0' <= c <= '9') ||
    c in {'_', '-', '.', '/', '\\', ':', '='}
  }

  /** Characters the scanner passes over without a token. */
  predicate IsBlank(c: char) {
    c == ' ' || c == '\t' || c == '\0'
  }

  /** Characters with a token of their own. */
  predicate IsPunctuation(c: char) {
    c == '(' || c == ')' || c == ','
  }

  /** A character that starts a STRING run: anything not punctuation, newline or blank. */
  predicate StartsString(c: char) {
    !IsPunctuation(c) && c != '\n' && !IsBlank(c)
  }

  /** The token of a punctuation character. */
  function PunctuationToken(c: char, n: nat): (t: Token)
    requires IsPunctuation(c)
    ensures t.lexeme == [c] && t.line == n
    ensures t.tokenType == (if c == '(' then LeftParen else if c == ')' then RightParen else Comma)
  {
    if c == '(' then Token(LeftParen, "(", n)
    else if c == ')' then Token(RightParen, ")", n)
    else Token(Comma, ",", n)
  }

  /** The LINE_END token; its lexeme is the two characters backslash and `n`. */
  function LineEndToken(n: nat): Token {
    Token(LineEnd, "\\n", n)
  }

  /** The end of the maximal run of valid characters starting at `k`. */
  function RunEnd(line: string, k: nat): (e: nat)
    requires k <= |line|
    ensures k <= e <= |line|
    ensures forall j :: k <= j < e ==> IsValidCharacter(line[j])
    ensures e == |line| || !IsValidCharacter(line[e])
    decreases |line| - k
  {
    if k < |line| && IsValidCharacter(line[k]) then RunEnd(line, k + 1) else k
  }

  /**
   * The tokens the scan loop emits from position `pos` on, once its two cursors
   * are in their steady state (`tokenEnd == tokenStart + 1`). A STRING starts at
   * `pos` and takes the valid characters after it.
   */
  function ScanRest(line: string, pos: nat, n: nat): seq<Token>
    requires pos <= |line|
    decreases |line| - pos
  {
    if pos == |line| then []
    else
      var c := line[pos];
      if IsPunctuation(c) then [PunctuationToken(c, n)] + ScanRest(line, pos + 1, n)
      else if c == '\n' then [LineEndToken(n)] + ScanRest(line, pos + 1, n)
      else if IsBlank(c) then ScanRest(line, pos + 1, n)
      else
        var e := RunEnd(line, pos + 1);
        [Token(Str, line[pos..e], n)] + ScanRest(line, e, n)
  }

  /**
   * What the first iteration of the scan loop adds in front of the
   * steady-state scan from position 0 (both cursors start at 0). Punctuation
   * and a newline are examined twice, so their token is emitted an extra time;
   * a character that is neither valid, punctuation nor blank first yields an
   * empty STRING; a blank or valid character adds nothing extra (a valid
   * character's run is examined once, and its STRING is the one the
   * steady-state scan from 0 yields).
   */
  function FirstPass(line: string, n: nat): seq<Token>
    requires |line| > 0
  {
    var c := line[0];
    if IsPunctuation(c) then [PunctuationToken(c, n)]
    else if c == '\n' then [LineEndToken(n)]
    else if IsBlank(c) || IsValidCharacter(c) then []
    else [Token(Str, "", n)]
  }

  /** The tokens of one line with line number `n`; a line starting with a newline is skipped. */
  function ScanLine(line: string, n: nat): seq<Token>
    requires |line| > 0
  {
    if line[0] == '\n' then [] else FirstPass(line, n) + ScanRest(line, 0, n)
  }

  /** Every line of a file as Python's file iteration yields it is non-empty. */
  predicate NonEmptyLines(lines: seq<string>) {
    forall i :: 0 <= i < |lines| ==> |lines[i]| > 0
  }

  /** The tokens of a whole file; the i-th line (from 0) is numbered i + 1. */
  function ScanLines(lines: seq<string>): seq<Token>
    requires NonEmptyLines(lines)
  {
    if |lines| == 0 then []
    else ScanLines(lines[..|lines| - 1]) + ScanLine(lines[|lines| - 1], |lines|)
  }

  /** The inner run loop of the scanner, which moves `tokenEnd` over valid characters. */
  method ExtendRun(line: string, start: nat) returns (tokenEnd: nat)
    requires start <= |line|
    ensures tokenEnd == RunEnd(line, start)
  {
    tokenEnd := start;
    while tokenEnd < |line| && IsValidCharacter(line[tokenEnd])
      invariant start <= tokenEnd <= |line|
      invariant RunEnd(line, tokenEnd) == RunEnd(line, start)
    {
      tokenEnd := tokenEnd + 1;
    }
  }

  /** The first pass of the scan loop, where both cursors are 0. */
  lemma {:induction false} FirstPassStep(line: string, n: nat)
    requires |line| > 0 && line[0] != '\n'
    ensures IsPunctuation(line[0]) ==> ScanLine(line, n) == [PunctuationToken(line[0], n)] + ScanRest(line, 0, n)
    ensures IsBlank(line[0]) ==> ScanLine(line, n) == ScanRest(line, 0, n)
    ensures IsValidCharacter(line[0]) ==>
      ScanLine(line, n) == [Token(Str, line[0..RunEnd(line, 0)], n)] + ScanRest(line, RunEnd(line, 0), n)
    ensures StartsString(line[0]) && !IsValidCharacter(line[0]) ==>
      ScanLine(line, n) == [Token(Str, "", n)] + ScanRest(line, 0, n)
  {
    if IsValidCharacter(line[0]) {
      assert RunEnd(line, 0) == RunEnd(line, 1);
    }
  }

  /** One steady-state pass of the scan loop, read off `ScanRest`. */
  lemma {:induction false} RestStep(line: string, pos: nat, n: nat)
    requires pos < |line|
    ensures IsPunctuation(line[pos]) ==> ScanRest(line, pos, n) == [PunctuationToken(line[pos], n)] + ScanRest(line, pos + 1, n)
    ensures line[pos] == '\n' ==> ScanRest(line, pos, n) == [LineEndToken(n)] + ScanRest(line, pos + 1, n)
    ensures IsBlank(line[pos]) ==> ScanRest(line, pos, n) == ScanRest(line, pos + 1, n)
    ensures StartsString(line[pos]) ==>
      ScanRest(line, pos, n) == [Token(Str, line[pos..RunEnd(line, pos + 1)], n)] + ScanRest(line, RunEnd(line, pos + 1), n)
  {
  }

  /**
   * One pass of the scanner's `for` loop over a line that does not start with
   * a newline, with `tokenStart` and `tokenEnd` both starting at 0.
   */
  method ScanOneLine(tokenList: TokenList, line: string, n: nat)
    requires |line| > 0 && line[0] != '\n'
    modifies tokenList
    ensures tokenList.tokens == old(tokenList.tokens) + ScanLine(line, n)
    ensures tokenList.current == old(tokenList.current)
  {
    ghost var goal := old(tokenList.tokens) + ScanLine(line, n);
    var tokenStart, tokenEnd := 0, 0;
    while tokenStart < |line|
      invariant tokenList.current == old(tokenList.current)
      invariant tokenStart <= |line|
      invariant tokenStart == 0 && tokenEnd == 0 ==> tokenList.tokens == old(tokenList.tokens)
      invariant !(tokenStart == 0 && tokenEnd == 0) ==>
        tokenEnd == tokenStart + 1 && tokenList.tokens + ScanRest(line, tokenStart, n) == goal
      decreases |line| + 1 - tokenEnd
    {
      ghost var firstPass := tokenStart == 0 && tokenEnd == 0;
      ghost var prev := tokenList.tokens;
      var c := line[tokenStart];
      if c == '(' {
        tokenList.Add(LeftParen, "(", n);
      } else if c == ')' {
        tokenList.Add(RightParen, ")", n);
      } else if c == ',' {
        tokenList.Add(Comma, ",", n);
      } else if c == '\n' {
        tokenList.Add(LineEnd, "\\n", n);
      } else if c == ' ' || c == '\t' || c == '\0' {
      } else {
        tokenEnd := ExtendRun(line, tokenEnd);
        tokenList.Add(Str, line[tokenStart..tokenEnd], n);
      }
      assert tokenList.tokens + ScanRest(line, tokenEnd, n) == goal by {
        if firstPass {
          FirstPassStep(line, n);
        } else {
          RestStep(line, tokenStart, n);
        }
        if IsPunctuation(c) {
          AppendAssoc(prev, [PunctuationToken(c, n)], ScanRest(line, tokenEnd, n));
        } else if c == '\n' {
          AppendAssoc(prev, [LineEndToken(n)], ScanRest(line, tokenEnd, n));
        } else if StartsString(c) {
          AppendAssoc(prev, [Token(Str, line[tokenStart..tokenEnd], n)], ScanRest(line, tokenEnd, n));
        }
      }
      tokenStart := tokenEnd;
      tokenEnd := tokenEnd + 1;
    }
  }

  /** The scanner over the lines of a build file. */
  method ScanFile(lines: seq<string>) returns (tokenList: TokenList)
    requires NonEmptyLines(lines)
    ensures tokenList.tokens == ScanLines(lines)
    ensures tokenList.current == 0
  {
    tokenList := new TokenList();
    for index := 0 to |lines|
      invariant tokenList.tokens == ScanLines(lines[..index])
      invariant tokenList.current == 0
    {
      assert lines[..index + 1][..index] == lines[..index];
      var line := lines[index];
      if line[0] != '\n' {
        ScanOneLine(tokenList, line, index + 1);
      }
    }
    assert lines[..|lines|] == lines;
  }
}
