/** Tokens and the forward-only token cursor `TokenList`. */
module Tokens {
  import opened Outcomes

  datatype TokenType = Str | LeftParen | RightParen | Comma | LineEnd

  /** A token carries its kind, its text and its 1-based source line. */
  datatype Token = Token(tokenType: TokenType, lexeme: string, line: nat)

  /** The lexemes of a list of tokens, in order. */
  function Lexemes(ts: seq<Token>): (r: seq<string>)
    ensures |r| == |ts|
  {
    if ts == [] then [] else [ts[0].lexeme] + Lexemes(ts[1..])
  }

  /** Concatenation of token lists is associative. */
  lemma {:induction false} AppendAssoc(a: seq<Token>, b: seq<Token>, c: seq<Token>)
    ensures (a + b) + c == a + (b + c)
  {
  }

  /** One more token adds its lexeme at the end. */
  lemma {:induction false} LexemesSnoc(ts: seq<Token>, t: Token)
    ensures Lexemes(ts + [t]) == Lexemes(ts) + [t.lexeme]
    decreases |ts|
  {
    if ts == [] {
      assert Lexemes([t]) == [t.lexeme] + Lexemes([]);
    } else {
      assert (ts + [t])[1..] == ts[1..] + [t];
      LexemesSnoc(ts[1..], t);
    }
  }

  /** What `advance` yields for index `c`: the token there, or `None` past the end. */
  function TokenAt(ts: seq<Token>, c: nat): (r: Option<Token>)
    ensures r.Some? <==> c < |ts|
    ensures r.Some? ==> r.value == ts[c]
  {
    if c < |ts| then Some(ts[c]) else None
  }

  /** True when `t` is a token of kind `k` (and not `None`). */
  predicate HasType(t: Option<Token>, k: TokenType) {
    t.Some? && t.value.tokenType == k
  }

  /**
   * The cursor that `skip_line` leaves when started at `c`: just past the first
   * LINE_END at or after `c`; when there is none, one past the larger of `c`
   * and the end (the final `advance` that returned `None` still counted).
   */
  function NextLineStart(ts: seq<Token>, c: nat): (r: nat)
    ensures r > c
    ensures r <= |ts| ==> ts[r - 1].tokenType == LineEnd
    ensures r <= |ts| ==> forall j :: c <= j < r - 1 ==> ts[j].tokenType != LineEnd
    ensures r > |ts| ==> r == (if c < |ts| then |ts| else c) + 1
    ensures r > |ts| ==> forall j :: c <= j < |ts| ==> ts[j].tokenType != LineEnd
    decreases |ts| - c
  {
    if c >= |ts| then c + 1
    else if ts[c].tokenType == LineEnd then c + 1
    else NextLineStart(ts, c + 1)
  }

  /** `skip_line` from `c` stops just past the first LINE_END at or after `c`. */
  lemma {:induction false} NextLineStartAtLineEnd(ts: seq<Token>, c: nat, j: nat)
    requires c <= j < |ts| && ts[j].tokenType == LineEnd
    requires forall i :: c <= i < j ==> ts[i].tokenType != LineEnd
    ensures NextLineStart(ts, c) == j + 1
  {
  }

  /** The token list of the scanner and the parser's cursor over it. */
  class TokenList {
    var tokens: seq<Token>
    var current: nat

    constructor ()
      ensures tokens == [] && current == 0
    {
      tokens := [];
      current := 0;
    }

    /** Appends one token; the cursor does not move. */
    method Add(tokenType: TokenType, lexeme: string, line: nat)
      modifies this
      ensures tokens == old(tokens) + [Token(tokenType, lexeme, line)]
      ensures current == old(current)
    {
      tokens := tokens + [Token(tokenType, lexeme, line)];
    }

    /**
     * Moves the cursor by exactly one, even past the end, and yields the token
     * under the old cursor, or `None` when the old cursor was at or past the end.
     */
    method Advance() returns (t: Option<Token>)
      modifies this
      ensures tokens == old(tokens)
      ensures current == old(current) + 1
      ensures t.None? <==> old(current) >= |tokens|
      ensures t.Some? ==> t.value == tokens[old(current)]
    {
      current := current + 1;
      if current - 1 >= |tokens| {
        return None;
      }
      return Some(tokens[current - 1]);
    }

    /** The token under the cursor; there is no bounds check, so past the end it raises. */
    function Peek(): (r: Outcome<Token>)
      reads this
      ensures r.Raised? <==> current >= |tokens|
      ensures r.Raised? ==> r.exc == IndexError
      ensures r.Ok? ==> r.value == tokens[current]
    {
      if current < |tokens| then Ok(tokens[current]) else Raised(IndexError)
    }

    predicate IsAtEnd()
      reads this
    {
      current >= |tokens|
    }

    /** Advances through the next LINE_END, or until `advance` yields `None`. */
    method SkipLine()
      modifies this
      ensures tokens == old(tokens)
      ensures current == NextLineStart(tokens, old(current))
    {
      var cur := Advance();
      while cur.Some? && cur.value.tokenType != LineEnd
        invariant tokens == old(tokens)
        invariant current >= 1
        invariant cur.Some? ==> current - 1 < |tokens| && cur.value == tokens[current - 1]
        invariant cur.None? ==> current - 1 >= |tokens|
        invariant NextLineStart(tokens, old(current)) == NextLineStart(tokens, current - 1)
        decreases |tokens| + 1 - current
      {
        cur := Advance();
      }
    }
  }
}
