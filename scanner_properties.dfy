/** What the scanner promises about the tokens of a line and of a file. */
module ScannerProperties {
  import opened Tokens
  import opened Scanner

  /** A line with its blanks and newlines deleted. */
  function Strip(s: string): string {
    if s == [] then []
    else (if IsBlank(s[0]) || s[0] == '\n' then [] else [s[0]]) + Strip(s[1..])
  }

  /** The concatenated lexemes of the tokens that are not LINE_END. */
  function TextOf(ts: seq<Token>): string {
    if ts == [] then []
    else (if ts[0].tokenType == LineEnd then [] else ts[0].lexeme) + TextOf(ts[1..])
  }

  lemma {:induction false} StripAppend(a: string, b: string)
    ensures Strip(a + b) == Strip(a) + Strip(b)
  {
    if a == [] {
      assert a + b == b;
    } else {
      assert (a + b)[0] == a[0];
      assert (a + b)[1..] == a[1..] + b;
      StripAppend(a[1..], b);
    }
  }

  lemma {:induction false} StripKeeps(s: string)
    requires forall j :: 0 <= j < |s| ==> !IsBlank(s[j]) && s[j] != '\n'
    ensures Strip(s) == s
  {
    if s != [] {
      StripKeeps(s[1..]);
    }
  }

  lemma {:induction false} TextOfAppend(a: seq<Token>, b: seq<Token>)
    ensures TextOf(a + b) == TextOf(a) + TextOf(b)
  {
    if a == [] {
      assert a + b == b;
    } else {
      assert (a + b)[0] == a[0];
      assert (a + b)[1..] == a[1..] + b;
      TextOfAppend(a[1..], b);
    }
  }

  /** Every token the steady-state scan emits carries the line number it was given. */
  lemma {:induction false} ScanRestNumbered(line: string, pos: nat, n: nat)
    requires pos <= |line|
    ensures forall k :: 0 <= k < |ScanRest(line, pos, n)| ==> ScanRest(line, pos, n)[k].line == n
    decreases |line| - pos
  {
    if pos < |line| {
      var c := line[pos];
      if IsPunctuation(c) || c == '\n' || IsBlank(c) {
        ScanRestNumbered(line, pos + 1, n);
      } else {
        ScanRestNumbered(line, RunEnd(line, pos + 1), n);
      }
    }
  }

  /** Every token of a line carries that line's number. */
  lemma {:induction false} ScanLineNumbered(line: string, n: nat)
    requires |line| > 0
    ensures forall k :: 0 <= k < |ScanLine(line, n)| ==> ScanLine(line, n)[k].line == n
  {
    if line[0] != '\n' {
      ScanRestNumbered(line, 0, n);
    }
  }

  /**
   * Line numbers of a file's tokens run from 1 to the number of lines and never
   * decrease; a line that is exactly a newline yields no token but still counts.
   */
  lemma {:induction false} ScanLinesNumbered(lines: seq<string>)
    requires NonEmptyLines(lines)
    ensures forall k :: 0 <= k < |ScanLines(lines)| ==> 1 <= ScanLines(lines)[k].line <= |lines|
    ensures forall j, k :: 0 <= j <= k < |ScanLines(lines)| ==> ScanLines(lines)[j].line <= ScanLines(lines)[k].line
  {
    if |lines| > 0 {
      var init := lines[..|lines| - 1];
      assert NonEmptyLines(init);
      ScanLinesNumbered(init);
      ScanLineNumbered(lines[|lines| - 1], |lines|);
      var a: seq<Token>, b: seq<Token> := ScanLines(init), ScanLine(lines[|lines| - 1], |lines|);
      assert ScanLines(lines) == a + b;
      forall k | 0 <= k < |a + b|
        ensures 1 <= (a + b)[k].line <= |lines|
      {
        if k >= |a| { assert (a + b)[k] == b[k - |a|]; }
      }
      forall j, k | 0 <= j <= k < |a + b|
        ensures (a + b)[j].line <= (a + b)[k].line
      {
        if k >= |a| { assert (a + b)[k] == b[k - |a|]; }
        if j >= |a| { assert (a + b)[j] == b[j - |a|]; }
      }
    }
  }

  /** A line that is exactly a newline adds nothing to the token list, yet is numbered. */
  lemma {:induction false} NewlineOnlyLineSkipped(lines: seq<string>, next: string)
    requires NonEmptyLines(lines) && |next| > 0
    ensures NonEmptyLines(lines + ["\n"]) && NonEmptyLines(lines + ["\n", next])
    ensures ScanLines(lines + ["\n"]) == ScanLines(lines)
    ensures ScanLines(lines + ["\n", next]) == ScanLines(lines) + ScanLine(next, |lines| + 2)
  {
    var withBlank := lines + ["\n"];
    var withNext := lines + ["\n", next];
    assert withBlank[..|lines|] == lines;
    assert withNext[..|lines| + 1] == withBlank;
    assert withNext[|lines| + 1] == next;
    assert NonEmptyLines(withBlank);
    assert NonEmptyLines(withNext);
    assert ScanLines(withBlank) == ScanLines(lines) + ScanLine("\n", |lines| + 1);
    assert ScanLines(withNext) == ScanLines(withBlank) + ScanLine(next, |lines| + 2);
  }

  /** No newline in the rest of a line: no LINE_END among its tokens. */
  lemma {:induction false} NoNewlineNoLineEnd(line: string, pos: nat, n: nat)
    requires pos <= |line|
    requires forall j :: pos <= j < |line| ==> line[j] != '\n'
    ensures forall k :: 0 <= k < |ScanRest(line, pos, n)| ==> ScanRest(line, pos, n)[k].tokenType != LineEnd
    decreases |line| - pos
  {
    if pos < |line| {
      var c := line[pos];
      if IsPunctuation(c) || IsBlank(c) {
        NoNewlineNoLineEnd(line, pos + 1, n);
      } else {
        NoNewlineNoLineEnd(line, RunEnd(line, pos + 1), n);
      }
    }
  }

  /** Tokens without a LINE_END put in front of a run that ends in its only LINE_END. */
  lemma {:induction false} LineEndStaysLast(t: seq<Token>, r: seq<Token>, n: nat)
    requires forall k :: 0 <= k < |t| ==> t[k].tokenType != LineEnd
    requires |r| > 0 && r[|r| - 1] == LineEndToken(n)
    requires forall k :: 0 <= k < |r| - 1 ==> r[k].tokenType != LineEnd
    ensures |t + r| > 0 && (t + r)[|t + r| - 1] == LineEndToken(n)
    ensures forall k :: 0 <= k < |t + r| - 1 ==> (t + r)[k].tokenType != LineEnd
  {
    forall k | 0 <= k < |t + r| - 1
      ensures (t + r)[k].tokenType != LineEnd
    {
      if k >= |t| {
        assert (t + r)[k] == r[k - |t|];
      }
    }
  }

  /** The rest of a line whose only newline is its last character ends in its only LINE_END. */
  lemma {:induction false} NewlineLastLineEnd(line: string, pos: nat, n: nat)
    requires pos < |line| && line[|line| - 1] == '\n'
    requires forall j :: pos <= j < |line| - 1 ==> line[j] != '\n'
    ensures |ScanRest(line, pos, n)| > 0
    ensures ScanRest(line, pos, n)[|ScanRest(line, pos, n)| - 1] == LineEndToken(n)
    ensures forall k :: 0 <= k < |ScanRest(line, pos, n)| - 1 ==> ScanRest(line, pos, n)[k].tokenType != LineEnd
    decreases |line| - pos
  {
    var c := line[pos];
    if pos == |line| - 1 {
      assert ScanRest(line, pos, n) == [LineEndToken(n)] + [];
    } else if IsPunctuation(c) {
      NewlineLastLineEnd(line, pos + 1, n);
      LineEndStaysLast([PunctuationToken(c, n)], ScanRest(line, pos + 1, n), n);
    } else if IsBlank(c) {
      NewlineLastLineEnd(line, pos + 1, n);
    } else {
      var e := RunEnd(line, pos + 1);
      assert e < |line|;
      NewlineLastLineEnd(line, e, n);
      LineEndStaysLast([Token(Str, line[pos..e], n)], ScanRest(line, e, n), n);
    }
  }

  /** Python's lines: a newline can only be a line's last character. */
  predicate NewlineOnlyLast(line: string) {
    forall j :: 0 <= j < |line| - 1 ==> line[j] != '\n'
  }

  /**
   * A line ending in a newline (other than a bare newline) yields exactly one
   * LINE_END, as its last token; a final line without a newline yields none.
   */
  lemma {:induction false} LineEndPlacement(line: string, n: nat)
    requires |line| > 0 && NewlineOnlyLast(line)
    ensures line[|line| - 1] == '\n' && line != "\n" ==>
      var ts := ScanLine(line, n);
      |ts| > 0 && ts[|ts| - 1] == LineEndToken(n) &&
      forall k :: 0 <= k < |ts| - 1 ==> ts[k].tokenType != LineEnd
    ensures line[|line| - 1] != '\n' ==>
      forall k :: 0 <= k < |ScanLine(line, n)| ==> ScanLine(line, n)[k].tokenType != LineEnd
  {
    if line[0] != '\n' {
      var first := FirstPass(line, n);
      assert forall k :: 0 <= k < |first| ==> first[k].tokenType != LineEnd;
      if line[|line| - 1] == '\n' {
        NewlineLastLineEnd(line, 0, n);
      } else {
        NoNewlineNoLineEnd(line, 0, n);
      }
      var rest := ScanRest(line, 0, n);
      assert ScanLine(line, n) == first + rest;
      forall k | 0 <= k < |first + rest| && k >= |first|
        ensures (first + rest)[k] == rest[k - |first|]
      {
      }
    } else {
      assert |line| == 1;
    }
  }

  /** Blanks followed by a newline leave only the LINE_END. */
  lemma {:induction false} BlanksThenNewline(line: string, pos: nat, n: nat)
    requires pos < |line| && line[|line| - 1] == '\n'
    requires forall j :: pos <= j < |line| - 1 ==> IsBlank(line[j])
    ensures ScanRest(line, pos, n) == [LineEndToken(n)]
    decreases |line| - pos
  {
    if pos < |line| - 1 {
      BlanksThenNewline(line, pos + 1, n);
    }
  }

  /** A whitespace-only line yields a single LINE_END (which the parser then reports). */
  lemma {:induction false} WhitespaceOnlyLine(line: string, n: nat)
    requires |line| >= 2 && line[|line| - 1] == '\n'
    requires forall j :: 0 <= j < |line| - 1 ==> IsBlank(line[j])
    ensures ScanLine(line, n) == [LineEndToken(n)]
  {
    BlanksThenNewline(line, 0, n);
  }

  /** A punctuation character, newline or blank at `pos`: one token or none, and the text follows. */
  lemma {:induction false} CoversSingle(line: string, pos: nat, n: nat)
    requires pos < |line| && !StartsString(line[pos])
    requires TextOf(ScanRest(line, pos + 1, n)) == Strip(line[pos + 1..])
    ensures TextOf(ScanRest(line, pos, n)) == Strip(line[pos..])
  {
    var c := line[pos];
    assert line[pos..][1..] == line[pos + 1..];
    var t := if IsPunctuation(c) then [PunctuationToken(c, n)] else if c == '\n' then [LineEndToken(n)] else [];
    assert ScanRest(line, pos, n) == t + ScanRest(line, pos + 1, n);
    TextOfAppend(t, ScanRest(line, pos + 1, n));
  }

  /** A STRING run from `pos` to `e`: its lexeme is that stretch of the line, and the text follows. */
  lemma {:induction false} CoversRun(line: string, pos: nat, e: nat, n: nat)
    requires pos < |line| && StartsString(line[pos]) && e == RunEnd(line, pos + 1)
    requires TextOf(ScanRest(line, e, n)) == Strip(line[e..])
    ensures TextOf(ScanRest(line, pos, n)) == Strip(line[pos..])
  {
    var t := [Token(Str, line[pos..e], n)];
    assert ScanRest(line, pos, n) == t + ScanRest(line, e, n);
    TextOfAppend(t, ScanRest(line, e, n));
    assert TextOf(t) == line[pos..e] + TextOf([]);
    assert line[pos..] == line[pos..e] + line[e..];
    StripAppend(line[pos..e], line[e..]);
    StripKeeps(line[pos..e]);
  }

  /** The steady-state scan keeps every character that is neither blank nor a newline. */
  lemma {:induction false} ScanRestCovers(line: string, pos: nat, n: nat)
    requires pos <= |line|
    ensures TextOf(ScanRest(line, pos, n)) == Strip(line[pos..])
    decreases |line| - pos
  {
    if pos == |line| {
      assert line[pos..] == [];
    } else if !StartsString(line[pos]) {
      ScanRestCovers(line, pos + 1, n);
      CoversSingle(line, pos, n);
    } else {
      var e := RunEnd(line, pos + 1);
      ScanRestCovers(line, e, n);
      CoversRun(line, pos, e, n);
    }
  }

  /**
   * The lexemes of a line's tokens other than LINE_END concatenate to the line
   * with its spaces, tabs, NULs and newline deleted: no character is dropped.
   * Only a first punctuation character is repeated (it is scanned twice).
   */
  lemma {:induction false} ScanLineCovers(line: string, n: nat)
    requires |line| > 0 && line[0] != '\n'
    ensures TextOf(ScanLine(line, n)) == (if IsPunctuation(line[0]) then [line[0]] else []) + Strip(line)
  {
    ScanRestCovers(line, 0, n);
    TextOfAppend(FirstPass(line, n), ScanRest(line, 0, n));
    assert line[0..] == line;
  }

  /** `line[a..b]` starts with a STRING-starting character and continues with a maximal valid run. */
  predicate IsStringRunAt(line: string, a: nat, b: nat) {
    a < b <= |line| && StartsString(line[a]) &&
    (forall j :: a < j < b ==> IsValidCharacter(line[j])) &&
    (b == |line| || !IsValidCharacter(line[b]))
  }

  /** Each STRING of the steady-state scan is a maximal run taken from the line itself. */
  lemma {:induction false} StringTokensAreRuns(line: string, pos: nat, n: nat, k: nat)
    requires pos <= |line|
    requires k < |ScanRest(line, pos, n)| && ScanRest(line, pos, n)[k].tokenType == Str
    ensures exists a: nat, b: nat :: pos <= a && IsStringRunAt(line, a, b) && ScanRest(line, pos, n)[k].lexeme == line[a..b]
    decreases |line| - pos
  {
    var c := line[pos];
    if IsPunctuation(c) || c == '\n' {
      StringTokensAreRuns(line, pos + 1, n, k - 1);
    } else if IsBlank(c) {
      StringTokensAreRuns(line, pos + 1, n, k);
    } else {
      var e := RunEnd(line, pos + 1);
      if k == 0 {
        assert IsStringRunAt(line, pos, e);
      } else {
        StringTokensAreRuns(line, e, n, k - 1);
      }
    }
  }

  /** A line starting with `(`, `)` or `,` emits that token twice. */
  lemma {:induction false} PunctuationFirstTwice(line: string, n: nat)
    requires |line| > 0 && IsPunctuation(line[0])
    ensures |ScanLine(line, n)| >= 2
    ensures ScanLine(line, n)[0] == PunctuationToken(line[0], n)
    ensures ScanLine(line, n)[1] == PunctuationToken(line[0], n)
  {
  }

  /**
   * A line starting with a character that is neither valid, punctuation nor
   * blank first emits an empty STRING, then a STRING beginning with that character.
   */
  lemma {:induction false} UnrecognisedFirstCharacter(line: string, n: nat)
    requires |line| > 0 && StartsString(line[0]) && !IsValidCharacter(line[0])
    ensures |ScanLine(line, n)| >= 2
    ensures ScanLine(line, n)[0] == Token(Str, "", n)
    ensures ScanLine(line, n)[1].tokenType == Str
    ensures ScanLine(line, n)[1].lexeme == line[..RunEnd(line, 1)]
    ensures ScanLine(line, n)[1].lexeme[0] == line[0]
  {
  }
}
