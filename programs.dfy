/**
 * Build files as the scanner hands them to the parser: one statement per
 * line, `Name ( value )` or `Name ( value , value , ... )`. Parsing such a
 * token list reports nothing and applies the statements in order.
 */
module Programs {
  import opened Outcomes
  import opened Tokens
  import opened BuildConfig
  import opened Semantics
  import opened ParserProperties

  /** One line of a build file: the command name as written, the setting it names and the values. */
  datatype Stmt =
    | SetStmt(name: string, field: Scalar, value: string)
    | AddStmt(name: string, list: ListField, values: seq<string>)

  /**
   * A statement the parser accepts without complaint: its name dispatches to
   * its setting (`CommandNamedOfName` shows every command has such a name),
   * a `Set*` value is accepted and an `Add*` line has at least one value.
   */
  predicate WellFormed(s: Stmt) {
    match s
    case SetStmt(name, f, v) => CommandNamed(name) == Some(SetCommand(f)) && Accepts(f, v)
    case AddStmt(name, l, vs) => CommandNamed(name) == Some(AddCommand(l)) && |vs| > 0
  }

  /** What a statement does to the configuration. */
  function Apply(cfg: Config, s: Stmt): Config {
    match s
    case SetStmt(_, f, v) => WithScalar(cfg, f, v)
    case AddStmt(_, l, vs) => WithAppended(cfg, l, vs)
  }

  /** What a sequence of statements does, first to last. */
  function ApplyAll(cfg: Config, stmts: seq<Stmt>): Config
    decreases |stmts|
  {
    if stmts == [] then cfg else ApplyAll(Apply(cfg, stmts[0]), stmts[1..])
  }

  /** The number of tokens of a statement's line, its LINE_END included. */
  function LineLength(s: Stmt): nat {
    match s
    case SetStmt(_, _, _) => 5
    case AddStmt(_, _, vs) => 2 * |vs| + 3
  }

  /** From `p` on, the tokens read `vs[0] , vs[1] , ... , vs[|vs| - 1]` (STRINGs and COMMAs). */
  predicate ValuesAt(ts: seq<Token>, p: nat, vs: seq<string>)
    decreases |vs|
  {
    |vs| > 0 && p + 2 * |vs| - 1 <= |ts| &&
    ts[p].tokenType == Str && ts[p].lexeme == vs[0] &&
    (|vs| == 1 || (ts[p + 1].tokenType == Comma && ValuesAt(ts, p + 2, vs[1..])))
  }

  /**
   * From `c` on, the tokens are the line of statement `s`: the name, `(`, the
   * value (a token of any kind for `Set*`) or the values, `)` and LINE_END.
   */
  predicate LineAt(ts: seq<Token>, c: nat, s: Stmt) {
    c + LineLength(s) <= |ts| &&
    ts[c].tokenType == Str && ts[c].lexeme == s.name && ts[c + 1].tokenType == LeftParen &&
    match s
    case SetStmt(_, _, v) =>
      ts[c + 2].lexeme == v && ts[c + 3].tokenType == RightParen && ts[c + 4].tokenType == LineEnd
    case AddStmt(_, _, vs) =>
      ValuesAt(ts, c + 2, vs) &&
      ts[c + 2 * |vs| + 1].tokenType == RightParen && ts[c + 2 * |vs| + 2].tokenType == LineEnd
  }

  /** From `c` on, the tokens are the lines of `stmts`, one after the other, up to the end. */
  predicate LinesAt(ts: seq<Token>, c: nat, stmts: seq<Stmt>)
    decreases |stmts|
  {
    if stmts == [] then c == |ts|
    else LineAt(ts, c, stmts[0]) && LinesAt(ts, c + LineLength(stmts[0]), stmts[1..])
  }

  /** `a , b , c` is an alternation that stops at the `)` after it. */
  lemma {:induction false} ValuesAlternate(ts: seq<Token>, p: nat, vs: seq<string>)
    requires ValuesAt(ts, p, vs)
    requires p + 2 * |vs| - 1 < |ts| && ts[p + 2 * |vs| - 1].tokenType == RightParen
    ensures AltLen(ts, p, true) == 2 * |vs| - 1
    decreases |vs|
  {
    if |vs| == 1 {
      assert AltLen(ts, p + 1, false) == 0;
    } else {
      ValuesAlternate(ts, p + 2, vs[1..]);
      assert AltLen(ts, p + 1, false) == 1 + AltLen(ts, p + 2, true);
    }
  }

  /** A STRING then a COMMA contribute the STRING alone to the parameters. */
  lemma {:induction false} StringTokensSkipComma(ts: seq<Token>, p: nat, q: nat)
    requires p + 1 < q <= |ts| && ts[p].tokenType == Str && ts[p + 1].tokenType == Comma
    ensures StringTokens(ts[p..q]) == [ts[p]] + StringTokens(ts[p + 2..q])
  {
    assert ts[p..q][1..] == ts[p + 1..q];
    assert ts[p + 1..q][1..] == ts[p + 2..q];
    assert StringTokens(ts[p + 1..q]) == [] + StringTokens(ts[p + 2..q]);
  }

  lemma {:induction false} LexemesCons(t: Token, ts: seq<Token>)
    ensures Lexemes([t] + ts) == [t.lexeme] + Lexemes(ts)
  {
    assert ([t] + ts)[1..] == ts;
  }

  /** One value more in front: its STRING's lexeme heads the collected lexemes. */
  lemma {:induction false} ValuesLexemesCons(ts: seq<Token>, p: nat, q: nat, vs: seq<string>)
    requires p + 1 < q <= |ts| && |vs| > 1
    requires ts[p].tokenType == Str && ts[p].lexeme == vs[0] && ts[p + 1].tokenType == Comma
    requires Lexemes(StringTokens(ts[p + 2..q])) == vs[1..]
    ensures Lexemes(StringTokens(ts[p..q])) == vs
  {
    StringTokensSkipComma(ts, p, q);
    LexemesCons(ts[p], StringTokens(ts[p + 2..q]));
    assert [vs[0]] + vs[1..] == vs;
  }

  /** The parameters collected from `a , b , c` have the lexemes `a`, `b`, `c`. */
  lemma {:induction false} ValuesLexemes(ts: seq<Token>, p: nat, vs: seq<string>)
    requires ValuesAt(ts, p, vs)
    ensures Lexemes(StringTokens(ts[p..p + 2 * |vs| - 1])) == vs
    decreases |vs|
  {
    if |vs| == 1 {
      assert ts[p..p + 1] == [ts[p]];
      assert StringTokens([ts[p]]) == [ts[p]] + StringTokens([]);
    } else {
      ValuesLexemes(ts, p + 2, vs[1..]);
      ValuesLexemesCons(ts, p, p + 2 * |vs| - 1, vs);
    }
  }

  /** A well-formed `Set*` line, parsed at its start. */
  lemma {:induction false} HandleSetLine(ts: seq<Token>, st: PState, name: string, f: Scalar, v: string)
    requires WellFormed(SetStmt(name, f, v)) && LineAt(ts, st.cur, SetStmt(name, f, v))
    ensures HandleAt(ts, st) == Ok(PState(st.cur + 5, WithScalar(st.cfg, f, v), st.err))
  {
    SetCommandWellFormed(ts, st, f);
    NextLineStartAtLineEnd(ts, st.cur + 4, st.cur + 4);
  }

  /** The `Add*` branch on `( vs[0] , ... , vs[|vs| - 1] )` and a LINE_END: the list grows by `vs`. */
  lemma {:induction false} ListLineBranch(ts: seq<Token>, st: PState, l: ListField, vs: seq<string>)
    requires st.cur < |ts| && ts[st.cur].tokenType == LeftParen && ValuesAt(ts, st.cur + 1, vs)
    requires st.cur + 2 * |vs| + 1 < |ts|
    requires ts[st.cur + 2 * |vs|].tokenType == RightParen && ts[st.cur + 2 * |vs| + 1].tokenType == LineEnd
    ensures ListCommandAt(ts, st, l) == Ok(PState(st.cur + 2 * |vs| + 2, WithAppended(st.cfg, l, vs), st.err))
  {
    var k := 2 * |vs| - 1;
    ValuesAlternate(ts, st.cur + 1, vs);
    ValuesLexemes(ts, st.cur + 1, vs);
    assert Lexemes(StringTokens(ts[st.cur + 1..st.cur + 1 + k])) == vs;
    NextLineStartAtLineEnd(ts, st.cur + 2 + k, st.cur + 2 + k);
    assert NextLineStart(ts, st.cur + 2 + k) == st.cur + 2 * |vs| + 2;
    ListCommandWellFormed(ts, st, l, k);
  }

  /** A well-formed `Add*` line, parsed at its start. */
  lemma {:induction false} HandleListLine(ts: seq<Token>, st: PState, name: string, l: ListField, vs: seq<string>)
    requires WellFormed(AddStmt(name, l, vs)) && LineAt(ts, st.cur, AddStmt(name, l, vs))
    ensures HandleAt(ts, st) == Ok(PState(st.cur + 2 * |vs| + 3, WithAppended(st.cfg, l, vs), st.err))
  {
    HandleAddByName(ts, st, l);
    ListLineBranch(ts, AfterName(st), l, vs);
  }

  /** A well-formed statement's line, parsed at its start: its effect, and the cursor on the next line. */
  lemma {:induction false} HandleLine(ts: seq<Token>, st: PState, s: Stmt)
    requires WellFormed(s) && LineAt(ts, st.cur, s)
    ensures st.cur < |ts| && ts[st.cur].tokenType == Str
    ensures HandleAt(ts, st) == Ok(PState(st.cur + LineLength(s), Apply(st.cfg, s), st.err))
  {
    match s
    case SetStmt(name, f, v) => HandleSetLine(ts, st, name, f, v);
    case AddStmt(name, l, vs) => HandleListLine(ts, st, name, l, vs);
  }

  /** The first of the remaining lines: the parse goes on after it. */
  lemma {:induction false} ParseLinesHead(ts: seq<Token>, st: PState, stmts: seq<Stmt>)
      returns (next: PState)
    requires |stmts| > 0 && forall i :: 0 <= i < |stmts| ==> WellFormed(stmts[i])
    requires LinesAt(ts, st.cur, stmts)
    ensures LinesAt(ts, next.cur, stmts[1..]) && next.err == st.err
    ensures forall i :: 0 <= i < |stmts[1..]| ==> WellFormed(stmts[1..][i])
    ensures ParseFrom(ts, st) == ParseFrom(ts, next)
    ensures ApplyAll(st.cfg, stmts) == ApplyAll(next.cfg, stmts[1..])
  {
    next := PState(st.cur + LineLength(stmts[0]), Apply(st.cfg, stmts[0]), st.err);
    assert WellFormed(stmts[0]);
    HandleLine(ts, st, stmts[0]);
    ParseFromStep(ts, st, next);
    forall i | 0 <= i < |stmts[1..]| ensures WellFormed(stmts[1..][i]) {
      assert stmts[1..][i] == stmts[i + 1];
    }
  }

  lemma {:induction false} ParseAtEnd(ts: seq<Token>, st: PState)
    requires st.cur == |ts|
    ensures ParseFrom(ts, st) == Ok(st)
  {
  }

  /**
   * Parsing the lines of well-formed statements that fill the token list
   * from the cursor on applies them in order and raises no error.
   */
  lemma {:induction false} ParseLinesFrom(ts: seq<Token>, st: PState, stmts: seq<Stmt>)
    requires forall i :: 0 <= i < |stmts| ==> WellFormed(stmts[i])
    requires LinesAt(ts, st.cur, stmts)
    ensures ParseFrom(ts, st) == Ok(PState(|ts|, ApplyAll(st.cfg, stmts), st.err))
    decreases |stmts|
  {
    if stmts == [] {
      ParseAtEnd(ts, st);
    } else {
      var next := ParseLinesHead(ts, st, stmts);
      ParseLinesFrom(ts, next, stmts[1..]);
    }
  }

  /**
   * A build file made of well-formed statement lines parses without an error
   * to the default configuration with the statements applied.
   */
  lemma {:induction false} ParseBuildLines(ts: seq<Token>, stmts: seq<Stmt>)
    requires forall i :: 0 <= i < |stmts| ==> WellFormed(stmts[i])
    requires LinesAt(ts, 0, stmts)
    ensures Parse(ts, false) == Ok(PState(|ts|, ApplyAll(DefaultConfig, stmts), false))
  {
    ParseLinesFrom(ts, PState(0, DefaultConfig, false), stmts);
  }
}
