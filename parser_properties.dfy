/** What the parser promises: grammar, per-command effects, recovery, crashes, whole-file parses. */
module ParserProperties {
  import opened Outcomes
  import opened Tokens
  import opened BuildConfig
  import opened Semantics

  /** The STRING tokens of a list, in order. */
  function StringTokens(ts: seq<Token>): (r: seq<Token>)
    ensures |r| <= |ts|
  {
    if ts == [] then []
    else (if ts[0].tokenType == Str then [ts[0]] else []) + StringTokens(ts[1..])
  }

  /** The kind expected at offset `i` of an alternation STRING, COMMA, STRING, ... (or COMMA, STRING, ...). */
  function Expected(startsWithString: bool, i: nat): TokenType {
    if (i % 2 == 0) == startsWithString then Str else Comma
  }

  lemma {:induction false} ExpectedShift(startsWithString: bool)
    ensures forall i: nat :: i >= 1 ==> Expected(!startsWithString, i - 1) == Expected(startsWithString, i)
  {
  }

  /** The length of the longest alternating run of STRING and COMMA tokens starting at `p`. */
  function AltLen(ts: seq<Token>, p: nat, startsWithString: bool): (k: nat)
    ensures k == 0 || p + k <= |ts|
    decreases |ts| - p
  {
    if p < |ts| && ts[p].tokenType == Expected(startsWithString, 0) then
      1 + AltLen(ts, p + 1, !startsWithString)
    else 0
  }

  /** `AltLen` measures an alternation that cannot be extended. */
  lemma {:induction false} AltLenIsLongestRun(ts: seq<Token>, p: nat, startsWithString: bool)
    ensures var k := AltLen(ts, p, startsWithString);
      (forall i :: 0 <= i < k ==> ts[p + i].tokenType == Expected(startsWithString, i)) &&
      (p + k >= |ts| || ts[p + k].tokenType != Expected(startsWithString, k))
    decreases |ts| - p
  {
    if p < |ts| && ts[p].tokenType == Expected(startsWithString, 0) {
      AltLenIsLongestRun(ts, p + 1, !startsWithString);
      ExpectedShift(startsWithString);
      var k := AltLen(ts, p, startsWithString);
      forall i | 0 <= i < k
        ensures ts[p + i].tokenType == Expected(startsWithString, i)
      {
        if i > 0 {
          assert ts[p + 1 + (i - 1)].tokenType == Expected(!startsWithString, i - 1);
        }
      }
      assert Expected(!startsWithString, k - 1) == Expected(startsWithString, k);
    }
  }

  /** The parameters kept from `ts[c..q]`: the first token if it is a STRING, then those of the rest. */
  lemma {:induction false} StringTokensHead(ts: seq<Token>, c: nat, q: nat)
    requires c < q <= |ts|
    ensures StringTokens(ts[c..q]) == (if ts[c].tokenType == Str then [ts[c]] else []) + StringTokens(ts[c + 1..q])
  {
    assert ts[c..q][0] == ts[c];
    assert ts[c..q][1..] == ts[c + 1..q];
  }

  /**
   * What `consume_param` (or, when the run starts with a COMMA,
   * `consume_comma`) does from `c` with `acc` collected so far: take the
   * longest alternating run of STRING and COMMA tokens and keep its STRINGs;
   * when the run reaches the end of the token list, the `peek` that follows
   * it raises an IndexError.
   */
  predicate ConsumesRun(ts: seq<Token>, c: nat, acc: seq<Token>, startsWithString: bool) {
    var k := AltLen(ts, c, startsWithString);
    (if startsWithString then ConsumeParamAt(ts, c, acc) else ConsumeCommaAt(ts, c, acc)) ==
    (if c + k >= |ts| then Raised(IndexError) else Ok(Consumed(acc + StringTokens(ts[c..c + k]), c + k)))
  }

  /** The token at `c` continues the run: if the run from `c + 1` is consumed as described, so is the run from `c`. */
  lemma {:induction false} ConsumeStep(ts: seq<Token>, c: nat, acc: seq<Token>, startsWithString: bool)
    requires c < |ts| && ts[c].tokenType == Expected(startsWithString, 0)
    requires ConsumesRun(ts, c + 1, if startsWithString then acc + [ts[c]] else acc, !startsWithString)
    ensures ConsumesRun(ts, c, acc, startsWithString)
  {
    var k := AltLen(ts, c, startsWithString);
    assert k == 1 + AltLen(ts, c + 1, !startsWithString);
    if c + k < |ts| {
      var tail := StringTokens(ts[c + 1..c + k]);
      StringTokensHead(ts, c, c + k);
      assert (ts[c].tokenType == Str) == startsWithString;
      if startsWithString {
        AppendAssoc(acc, [ts[c]], tail);
      } else {
        assert [] + tail == tail;
      }
    }
  }

  /** `consume_param` and `consume_comma` consume the longest alternating run, as `ConsumesRun` describes. */
  lemma {:induction false} ConsumeIsAlternation(ts: seq<Token>, c: nat, acc: seq<Token>, startsWithString: bool)
    ensures ConsumesRun(ts, c, acc, startsWithString)
    decreases |ts| - c
  {
    if c >= |ts| {
    } else if ts[c].tokenType == Expected(startsWithString, 0) {
      ConsumeIsAlternation(ts, c + 1, if startsWithString then acc + [ts[c]] else acc, !startsWithString);
      ConsumeStep(ts, c, acc, startsWithString);
    } else {
      assert ts[c..c] == [];
      assert acc + [] == acc;
    }
  }

  /**
   * `get_complex_command_params` in one piece: `(`, then the longest
   * STRING/COMMA alternation, which must start with a STRING, then `)`; so the
   * parameters match STRING (COMMA STRING)* with one optional trailing COMMA.
   */
  lemma {:induction false} ComplexParamsShape(ts: seq<Token>, c: nat, err: bool)
    ensures var k := AltLen(ts, c + 1, true);
      ComplexParamsAt(ts, c, err) ==
        if !HasType(TokenAt(ts, c), LeftParen) then Ok(Step(None, c + 1, true))
        else if c + 1 + k >= |ts| then Raised(IndexError)
        else if k == 0 then Ok(Step(None, c + 1, err))
        else if ts[c + 1 + k].tokenType != RightParen then Ok(Step(None, c + 2 + k, true))
        else Ok(Step(Some(StringTokens(ts[c + 1..c + 1 + k])), c + 2 + k, err))
  {
    if HasType(TokenAt(ts, c), LeftParen) {
      ConsumeIsAlternation(ts, c + 1, [], true);
      var k := AltLen(ts, c + 1, true);
      if c + 1 + k < |ts| && k > 0 {
        var run := ts[c + 1..c + 1 + k];
        assert run[0].tokenType == Str;
        assert StringTokens(run) == [run[0]] + StringTokens(run[1..]);
        assert [] + StringTokens(run) == StringTokens(run);
      }
    }
  }

  /** The well-formed case of `ComplexParamsShape` on its own, for a run of `k` tokens. */
  lemma {:induction false} ComplexParamsWellFormed(ts: seq<Token>, c: nat, err: bool, k: nat)
    requires c < |ts| && ts[c].tokenType == LeftParen
    requires AltLen(ts, c + 1, true) == k && k > 0 && c + 1 + k < |ts| && ts[c + 1 + k].tokenType == RightParen
    ensures ComplexParamsAt(ts, c, err) == Ok(Step(Some(StringTokens(ts[c + 1..c + 1 + k])), c + 2 + k, err))
  {
    ComplexParamsShape(ts, c, err);
  }

  /** A parameter list with a trailing comma, `X(a,)`, is accepted. */
  lemma {:induction false} TrailingCommaAccepted(ts: seq<Token>, c: nat, err: bool)
    requires c + 4 < |ts|
    requires ts[c].tokenType == LeftParen && ts[c + 1].tokenType == Str
    requires ts[c + 2].tokenType == Comma && ts[c + 3].tokenType == RightParen
    ensures ComplexParamsAt(ts, c, err) == Ok(Step(Some([ts[c + 1]]), c + 4, err))
  {
    assert AltLen(ts, c + 3, true) == 0;
    assert AltLen(ts, c + 2, false) == 1;
    assert AltLen(ts, c + 1, true) == 2;
    assert ts[c + 1..c + 3] == [ts[c + 1], ts[c + 2]];
    assert StringTokens([ts[c + 2]]) == [] + StringTokens([]);
    assert StringTokens([ts[c + 1], ts[c + 2]]) == [ts[c + 1]] + StringTokens([ts[c + 2]]);
    assert StringTokens(ts[c + 1..c + 3]) == [ts[c + 1]];
    ComplexParamsWellFormed(ts, c, err, 2);
  }

  /** One round of the `parse_tokens` loop on a STRING: the parse continues from where `handle_command` left off. */
  lemma {:induction false} ParseFromStep(ts: seq<Token>, st: PState, next: PState)
    requires st.cur < |ts| && ts[st.cur].tokenType == Str && HandleAt(ts, st) == Ok(next)
    ensures ParseFrom(ts, st) == ParseFrom(ts, next)
  {
  }

  /** The state `handle_command` starts a command's branch in: the cursor just past the name. */
  function AfterName(st: PState): PState {
    PState(st.cur + 1, st.cfg, st.err)
  }

  /** `handle_command` on a known `Set*` name runs that setting's branch. */
  lemma {:induction false} HandleSetByName(ts: seq<Token>, st: PState, field: Scalar)
    requires st.cur < |ts| && ts[st.cur].tokenType == Str && CommandNamed(ts[st.cur].lexeme) == Some(SetCommand(field))
    ensures HandleAt(ts, st) == Ok(ScalarCommandAt(ts, AfterName(st), field))
  {
  }

  /** `handle_command` on a known `Add*` name runs that list's branch. */
  lemma {:induction false} HandleAddByName(ts: seq<Token>, st: PState, list: ListField)
    requires st.cur < |ts| && ts[st.cur].tokenType == Str && CommandNamed(ts[st.cur].lexeme) == Some(AddCommand(list))
    ensures HandleAt(ts, st) == ListCommandAt(ts, AfterName(st), list)
  {
  }

  /**
   * A `Set*` command written `X ( t )`: the setting becomes the lexeme of `t`
   * (a token of any kind) when the setting accepts it; otherwise nothing
   * changes and the error flag is raised. The rest of the line is skipped.
   */
  lemma {:induction false} SetCommandWellFormed(ts: seq<Token>, st: PState, field: Scalar)
    requires st.cur + 3 < |ts|
    requires ts[st.cur].tokenType == Str && CommandNamed(ts[st.cur].lexeme) == Some(SetCommand(field))
    requires ts[st.cur + 1].tokenType == LeftParen && ts[st.cur + 3].tokenType == RightParen
    ensures var v := ts[st.cur + 2].lexeme;
      HandleAt(ts, st) ==
        if Accepts(field, v) then Ok(PState(NextLineStart(ts, st.cur + 4), WithScalar(st.cfg, field, v), st.err))
        else Ok(PState(NextLineStart(ts, st.cur + 4), st.cfg, true))
  {
    HandleSetByName(ts, st, field);
  }

  /** `SetProjectName ( t )` stores the lexeme of whatever single token `t` is, a comma included. */
  lemma {:induction false} ProjectNameTakesAnyToken(ts: seq<Token>, st: PState)
    requires st.cur + 3 < |ts|
    requires ts[st.cur].tokenType == Str && CommandNamed(ts[st.cur].lexeme) == Some(SetCommand(ProjectName))
    requires ts[st.cur + 1].tokenType == LeftParen && ts[st.cur + 3].tokenType == RightParen
    ensures HandleAt(ts, st).Ok?
    ensures HandleAt(ts, st).value.cfg == st.cfg.(projectName := ts[st.cur + 2].lexeme)
    ensures HandleAt(ts, st).value.err == st.err
  {
    SetCommandWellFormed(ts, st, ProjectName);
  }

  /**
   * A `Set*` command not of the form `X ( t )` leaves the configuration alone
   * and raises the error flag. The cursor then skips a line from just past the
   * token examined last, so when that token was the line's own LINE_END the
   * next line is skipped too.
   */
  lemma {:induction false} SetCommandMalformed(ts: seq<Token>, st: PState, field: Scalar)
    requires st.cur < |ts|
    requires ts[st.cur].tokenType == Str && CommandNamed(ts[st.cur].lexeme) == Some(SetCommand(field))
    requires !(st.cur + 3 < |ts| && ts[st.cur + 1].tokenType == LeftParen && ts[st.cur + 3].tokenType == RightParen)
    ensures var c := st.cur;
      var last := if !HasType(TokenAt(ts, c + 1), LeftParen) then c + 1
                  else if c + 2 >= |ts| then c + 2
                  else c + 3;
      HandleAt(ts, st) == Ok(PState(NextLineStart(ts, last + 1), st.cfg, true))
  {
    HandleSetByName(ts, st, field);
  }

  /** The `Add*` branch on a well-formed parameter list of `k` tokens: the list grows by the lexemes. */
  lemma {:induction false} ListCommandWellFormed(ts: seq<Token>, st: PState, list: ListField, k: nat)
    requires st.cur < |ts| && ts[st.cur].tokenType == LeftParen
    requires AltLen(ts, st.cur + 1, true) == k && k > 0
    requires st.cur + 1 + k < |ts| && ts[st.cur + 1 + k].tokenType == RightParen
    ensures ListCommandAt(ts, st, list) ==
      Ok(PState(NextLineStart(ts, st.cur + 2 + k),
                WithAppended(st.cfg, list, Lexemes(StringTokens(ts[st.cur + 1..st.cur + 1 + k]))),
                st.err))
  {
    ComplexParamsWellFormed(ts, st.cur, st.err, k);
  }

  /**
   * An `Add*` command written `X ( s , s , ... )`, its parameter run `k`
   * tokens long: the list grows by the parameters' lexemes, in order, and the
   * error flag is untouched.
   */
  lemma {:induction false} AddCommandWellFormed(ts: seq<Token>, st: PState, list: ListField, k: nat)
    requires st.cur + 1 < |ts|
    requires ts[st.cur].tokenType == Str && CommandNamed(ts[st.cur].lexeme) == Some(AddCommand(list))
    requires ts[st.cur + 1].tokenType == LeftParen
    requires AltLen(ts, st.cur + 2, true) == k && k > 0
    requires st.cur + 2 + k < |ts| && ts[st.cur + 2 + k].tokenType == RightParen
    ensures HandleAt(ts, st) ==
      Ok(PState(NextLineStart(ts, st.cur + 3 + k),
                WithAppended(st.cfg, list, Lexemes(StringTokens(ts[st.cur + 2..st.cur + 2 + k]))),
                st.err))
  {
    HandleAddByName(ts, st, list);
    ListCommandWellFormed(ts, AfterName(st), list, k);
  }

  /** `X()`: no parameters, so the list is unchanged and the error flag is raised. */
  lemma {:induction false} AddCommandEmpty(ts: seq<Token>, st: PState, list: ListField)
    requires st.cur + 2 < |ts|
    requires ts[st.cur].tokenType == Str && CommandNamed(ts[st.cur].lexeme) == Some(AddCommand(list))
    requires ts[st.cur + 1].tokenType == LeftParen && ts[st.cur + 2].tokenType == RightParen
    ensures HandleAt(ts, st) == Ok(PState(NextLineStart(ts, st.cur + 2), st.cfg, true))
  {
    HandleAddByName(ts, st, list);
    ComplexParamsShape(ts, st.cur + 1, st.err);
  }

  /** The `Add*` branch on anything but a well-formed parameter list changes no setting and is reported. */
  lemma {:induction false} ListCommandMalformed(ts: seq<Token>, st: PState, list: ListField)
    requires !(st.cur < |ts| && ts[st.cur].tokenType == LeftParen &&
               var k := AltLen(ts, st.cur + 1, true);
               k > 0 && st.cur + 1 + k < |ts| && ts[st.cur + 1 + k].tokenType == RightParen)
    requires ListCommandAt(ts, st, list).Ok?
    ensures ListCommandAt(ts, st, list).value.cfg == st.cfg
    ensures ListCommandAt(ts, st, list).value.err
  {
    ComplexParamsShape(ts, st.cur, st.err);
    assert ComplexParamsAt(ts, st.cur, st.err).value.value.None?;
  }

  /**
   * An `Add*` command that does not raise and is not well formed leaves the
   * configuration alone and raises the error flag.
   */
  lemma {:induction false} AddCommandMalformed(ts: seq<Token>, st: PState, list: ListField)
    requires st.cur < |ts|
    requires ts[st.cur].tokenType == Str && CommandNamed(ts[st.cur].lexeme) == Some(AddCommand(list))
    requires !(st.cur + 1 < |ts| && ts[st.cur + 1].tokenType == LeftParen &&
               var k := AltLen(ts, st.cur + 2, true);
               k > 0 && st.cur + 2 + k < |ts| && ts[st.cur + 2 + k].tokenType == RightParen)
    requires HandleAt(ts, st).Ok?
    ensures HandleAt(ts, st).value.cfg == st.cfg
    ensures HandleAt(ts, st).value.err
  {
    HandleAddByName(ts, st, list);
    ListCommandMalformed(ts, AfterName(st), list);
  }

  /**
   * `X(` with the parameter run reaching the end of the token list (as in
   * `AddFile(` on a last line without a newline): the `peek` past the end
   * raises an IndexError.
   */
  lemma {:induction false} AddCommandRunsOffEnd(ts: seq<Token>, st: PState, list: ListField)
    requires st.cur + 1 < |ts|
    requires ts[st.cur].tokenType == Str && CommandNamed(ts[st.cur].lexeme) == Some(AddCommand(list))
    requires ts[st.cur + 1].tokenType == LeftParen
    requires st.cur + 2 + AltLen(ts, st.cur + 2, true) >= |ts|
    ensures HandleAt(ts, st) == Raised(IndexError)
  {
    HandleAddByName(ts, st, list);
    ComplexParamsShape(ts, st.cur + 1, st.err);
  }

  /** An unknown command name raises a TypeError, and so does the whole parse. */
  lemma {:induction false} UnknownCommandRaises(ts: seq<Token>, st: PState)
    requires st.cur < |ts| && ts[st.cur].tokenType == Str
    requires CommandNamed(ts[st.cur].lexeme).None?
    ensures HandleAt(ts, st) == Raised(TypeError)
    ensures ParseFrom(ts, st) == Raised(TypeError)
  {
  }

  /**
   * A command name with nothing after it on its line (`SetCompiler` or
   * `AddFile` alone): the LINE_END is examined as the missing `(`, the line
   * skip starts past it, and so the whole next line is discarded unparsed.
   */
  lemma {:induction false} BareCommandSkipsNextLine(ts: seq<Token>, st: PState, j: nat)
    requires st.cur + 1 < |ts| && ts[st.cur].tokenType == Str
    requires CommandNamed(ts[st.cur].lexeme).Some?
    requires ts[st.cur + 1].tokenType == LineEnd
    requires st.cur + 1 < j < |ts| && ts[j].tokenType == LineEnd
    requires forall i :: st.cur + 1 < i < j ==> ts[i].tokenType != LineEnd
    ensures HandleAt(ts, st) == Ok(PState(j + 1, st.cfg, true))
  {
    NextLineStartAtLineEnd(ts, st.cur + 2, j);
    BareBranch(ts, st, CommandNamed(ts[st.cur].lexeme));
  }

  /** Either branch on a LINE_END where the `(` belongs: nothing changes, the flag is raised, the line skip starts past it. */
  lemma {:induction false} BareBranch(ts: seq<Token>, st: PState, cmd: Option<Command>)
    requires st.cur + 1 < |ts| && ts[st.cur].tokenType == Str && ts[st.cur + 1].tokenType == LineEnd
    requires cmd.Some? && CommandNamed(ts[st.cur].lexeme) == cmd
    ensures HandleAt(ts, st) == Ok(PState(NextLineStart(ts, st.cur + 2), st.cfg, true))
  {
    match cmd.value
    case SetCommand(f) => HandleSetByName(ts, st, f);
    case AddCommand(l) => HandleAddByName(ts, st, l);
  }

  /**
   * `X()` for a `Set*` command: the `)` is taken as the value, the LINE_END is
   * then examined as the closing `)`, and the whole next line is discarded.
   */
  lemma {:induction false} EmptySetSkipsNextLine(ts: seq<Token>, st: PState, field: Scalar, j: nat)
    requires st.cur + 4 < |ts|
    requires ts[st.cur].tokenType == Str && CommandNamed(ts[st.cur].lexeme) == Some(SetCommand(field))
    requires ts[st.cur + 1].tokenType == LeftParen && ts[st.cur + 2].tokenType == RightParen
    requires ts[st.cur + 3].tokenType == LineEnd
    requires st.cur + 3 < j < |ts| && ts[j].tokenType == LineEnd
    requires forall i :: st.cur + 3 < i < j ==> ts[i].tokenType != LineEnd
    ensures HandleAt(ts, st) == Ok(PState(j + 1, st.cfg, true))
  {
    SetCommandMalformed(ts, st, field);
    NextLineStartAtLineEnd(ts, st.cur + 4, j);
  }

  /**
   * A line whose first token is not a STRING (a whitespace-only line is a lone
   * LINE_END) is reported, and parsing resumes on the next line.
   */
  lemma {:induction false} NonStringLineReported(ts: seq<Token>, st: PState)
    requires st.cur < |ts| && ts[st.cur].tokenType != Str
    ensures ts[st.cur].tokenType == LineEnd ==>
      ParseFrom(ts, st) == ParseFrom(ts, PState(st.cur + 1, st.cfg, true))
    ensures ParseFrom(ts, st) == ParseFrom(ts, PState(NextLineStart(ts, st.cur), st.cfg, true))
  {
    if ts[st.cur].tokenType == LineEnd {
      NextLineStartAtLineEnd(ts, st.cur, st.cur);
    }
  }

  /**
   * How a configuration may change while parsing: lists only grow at their
   * end, and a setting that changes takes a value it accepts.
   */
  predicate Evolves(before: Config, after: Config) {
    (forall l :: ListOf(before, l) <= ListOf(after, l)) &&
    (forall f :: ScalarOf(after, f) == ScalarOf(before, f) || Accepts(f, ScalarOf(after, f)))
  }

  lemma {:induction false} EvolvesTransitive(a: Config, b: Config, c: Config)
    requires Evolves(a, b) && Evolves(b, c)
    ensures Evolves(a, c)
  {
    forall l
      ensures ListOf(a, l) <= ListOf(c, l)
    {
      assert ListOf(a, l) <= ListOf(b, l) <= ListOf(c, l);
    }
  }

  /**
   * One command changes only the setting its name stands for, appends to a
   * list rather than replacing it, and stores only accepted values.
   */
  lemma {:induction false} HandleTouchesOnlyNamedSetting(ts: seq<Token>, st: PState)
    requires st.cur < |ts| && ts[st.cur].tokenType == Str
    requires HandleAt(ts, st).Ok?
    ensures CommandNamed(ts[st.cur].lexeme).Some?
    ensures var cmd := CommandNamed(ts[st.cur].lexeme).value;
      var after := HandleAt(ts, st).value.cfg;
      (forall f :: cmd != SetCommand(f) ==> ScalarOf(after, f) == ScalarOf(st.cfg, f)) &&
      (forall l :: cmd != AddCommand(l) ==> ListOf(after, l) == ListOf(st.cfg, l)) &&
      Evolves(st.cfg, after)
  {
    var cmd := CommandNamed(ts[st.cur].lexeme).value;
    match cmd
    case SetCommand(f) =>
      HandleSetByName(ts, st, f);
    case AddCommand(l) =>
      HandleAddByName(ts, st, l);
      var after := HandleAt(ts, st).value.cfg;
      forall m
        ensures ListOf(st.cfg, m) <= ListOf(after, m)
      {
        if m == l && after != st.cfg {
          var params := ComplexCommandAt(ts, st.cur + 1, st.err).value.value.value;
          assert ListOf(after, m) == ListOf(st.cfg, m) + Lexemes(params);
        }
      }
  }

  /** A parse that does not raise only lets the configuration evolve. */
  lemma {:induction false} ParseEvolves(ts: seq<Token>, st: PState)
    requires ParseFrom(ts, st).Ok?
    ensures Evolves(st.cfg, ParseFrom(ts, st).value.cfg)
    decreases |ts| - st.cur
  {
    if st.cur >= |ts| {
    } else if ts[st.cur].tokenType == Str {
      var next := HandleAt(ts, st).value;
      HandleTouchesOnlyNamedSetting(ts, st);
      ParseEvolves(ts, next);
      EvolvesTransitive(st.cfg, next.cfg, ParseFrom(ts, next).value.cfg);
    } else {
      ParseEvolves(ts, PState(NextLineStart(ts, st.cur), st.cfg, true));
    }
  }

  /**
   * Whatever the token list, a parse that does not raise ends with every
   * setting holding a value that setting accepts (the compiler is one of the
   * four known compilers, and so on).
   */
  lemma {:induction false} ParsedSettingsLegal(ts: seq<Token>, err: bool)
    requires Parse(ts, err).Ok?
    ensures ScalarsLegal(Parse(ts, err).value.cfg)
  {
    DefaultConfigLegal();
    ParseEvolves(ts, PState(0, DefaultConfig, err));
    var after := Parse(ts, err).value.cfg;
    forall f
      ensures Accepts(f, ScalarOf(after, f))
    {
      assert Accepts(f, ScalarOf(DefaultConfig, f));
    }
  }
}
