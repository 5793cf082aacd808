/**
 * The parser as functions of the token list, the cursor and the error flag:
 * one function per parsing procedure, giving the value it returns, where it
 * leaves the cursor and what the error flag is afterwards.
 */
module Semantics {
  import opened Outcomes
  import opened Tokens
  import opened BuildConfig

  /** The parser's state between commands: cursor, configuration and error flag. */
  datatype PState = PState(cur: nat, cfg: Config, err: bool)

  /** What a parsing procedure returns, with the cursor and error flag it leaves. */
  datatype Step<T> = Step(value: T, cur: nat, err: bool)

  /** The parameters collected so far and the cursor where collection stopped. */
  datatype Consumed = Consumed(params: seq<Token>, cur: nat)

  /**
   * `get_simple_command_param` at cursor `c`: `(`, then any one token, then `)`.
   * A missing `(` or `)` is reported; running out of tokens right after `(` is not.
   */
  function SimpleParamAt(ts: seq<Token>, c: nat, err: bool): (r: Step<Option<Token>>)
    ensures r.cur > c
    ensures err ==> r.err
  {
    if !HasType(TokenAt(ts, c), LeftParen) then Step(None, c + 1, true)
    else if c + 1 >= |ts| then Step(None, c + 2, err)
    else if !HasType(TokenAt(ts, c + 2), RightParen) then Step(None, c + 3, true)
    else Step(Some(ts[c + 1]), c + 3, err)
  }

  /** `simple_command`: the parameter, then the rest of the line skipped; no parameter is an error. */
  function SimpleCommandAt(ts: seq<Token>, c: nat, err: bool): (r: Step<Option<Token>>)
    ensures r.cur > c
    ensures err ==> r.err
    ensures r.value.None? ==> r.err
  {
    var s := SimpleParamAt(ts, c, err);
    Step(s.value, NextLineStart(ts, s.cur), s.err || s.value.None?)
  }

  /** `consume_param` at cursor `c`: a STRING is taken and a comma may follow; peeking past the end raises. */
  function ConsumeParamAt(ts: seq<Token>, c: nat, acc: seq<Token>): (r: Outcome<Consumed>)
    ensures r.Ok? ==> c <= r.value.cur < |ts|
    ensures r.Ok? ==> acc <= r.value.params
    decreases |ts| - c
  {
    if c >= |ts| then Raised(IndexError)
    else if ts[c].tokenType == Str then ConsumeCommaAt(ts, c + 1, acc + [ts[c]])
    else Ok(Consumed(acc, c))
  }

  /** `consume_comma` at cursor `c`: a COMMA is taken and another parameter may follow. */
  function ConsumeCommaAt(ts: seq<Token>, c: nat, acc: seq<Token>): (r: Outcome<Consumed>)
    ensures r.Ok? ==> c <= r.value.cur < |ts|
    ensures r.Ok? ==> acc <= r.value.params
    decreases |ts| - c
  {
    if c >= |ts| then Raised(IndexError)
    else if ts[c].tokenType == Comma then ConsumeParamAt(ts, c + 1, acc)
    else Ok(Consumed(acc, c))
  }

  /**
   * `get_complex_command_params` at cursor `c`: `(`, one or more parameters, `)`.
   * A missing `(` or `)` is reported; an empty parameter list is not (the caller reports it).
   */
  function ComplexParamsAt(ts: seq<Token>, c: nat, err: bool): (r: Outcome<Step<Option<seq<Token>>>>)
    ensures r.Ok? ==> r.value.cur > c
    ensures r.Ok? && err ==> r.value.err
  {
    if !HasType(TokenAt(ts, c), LeftParen) then Ok(Step(None, c + 1, true))
    else
      match ConsumeParamAt(ts, c + 1, [])
      case Raised(e) => Raised(e)
      case Ok(p) =>
        if |p.params| == 0 then Ok(Step(None, p.cur, err))
        else if !HasType(TokenAt(ts, p.cur), RightParen) then Ok(Step(None, p.cur + 1, true))
        else Ok(Step(Some(p.params), p.cur + 1, err))
  }

  /** `complex_command`: the parameters, then the rest of the line skipped; no parameters is an error. */
  function ComplexCommandAt(ts: seq<Token>, c: nat, err: bool): (r: Outcome<Step<Option<seq<Token>>>>)
    ensures r.Ok? ==> r.value.cur > c
    ensures r.Ok? && err ==> r.value.err
    ensures r.Ok? && r.value.value.None? ==> r.value.err
  {
    match ComplexParamsAt(ts, c, err)
    case Raised(e) => Raised(e)
    case Ok(s) => Ok(Step(s.value, NextLineStart(ts, s.cur), s.err || s.value.None?))
  }

  /**
   * One of the six `Set*` branches of `handle_command`, with the cursor just
   * past the command name: the value is stored only if the setting accepts it.
   */
  function ScalarCommandAt(ts: seq<Token>, st: PState, field: Scalar): (r: PState)
    ensures r.cur > st.cur
    ensures st.err ==> r.err
  {
    var s := SimpleCommandAt(ts, st.cur, st.err);
    if s.value.None? then PState(s.cur, st.cfg, s.err)
    else if Accepts(field, s.value.value.lexeme) then
      PState(s.cur, WithScalar(st.cfg, field, s.value.value.lexeme), s.err)
    else PState(s.cur, st.cfg, true)
  }

  /** One of the eight `Add*` branches of `handle_command`, with the cursor just past the command name. */
  function ListCommandAt(ts: seq<Token>, st: PState, list: ListField): (r: Outcome<PState>)
    ensures r.Ok? ==> r.value.cur > st.cur
    ensures r.Ok? && st.err ==> r.value.err
  {
    match ComplexCommandAt(ts, st.cur, st.err)
    case Raised(e) => Raised(e)
    case Ok(s) =>
      if s.value.None? then Ok(PState(s.cur, st.cfg, s.err))
      else Ok(PState(s.cur, WithAppended(st.cfg, list, Lexemes(s.value.value)), s.err))
  }

  /**
   * `handle_command` on the STRING under the cursor: dispatch on its lexeme.
   * An unknown name raises a TypeError (`skip_line` is called with an argument
   * it does not take), after the error flag is set.
   */
  function HandleAt(ts: seq<Token>, st: PState): (r: Outcome<PState>)
    requires st.cur < |ts| && ts[st.cur].tokenType == Str
    ensures r.Ok? ==> r.value.cur > st.cur
    ensures r.Ok? && st.err ==> r.value.err
  {
    var next := PState(st.cur + 1, st.cfg, st.err);
    match CommandNamed(ts[st.cur].lexeme)
    case None => Raised(TypeError)
    case Some(SetCommand(field)) => Ok(ScalarCommandAt(ts, next, field))
    case Some(AddCommand(list)) => ListCommandAt(ts, next, list)
  }

  /**
   * `parse_tokens` from state `st`: until the cursor reaches the end, a STRING
   * starts a command and anything else is reported and its line skipped.
   */
  function ParseFrom(ts: seq<Token>, st: PState): (r: Outcome<PState>)
    ensures r.Ok? ==> r.value.cur >= |ts|
    ensures r.Ok? && st.err ==> r.value.err
    decreases |ts| - st.cur
  {
    if st.cur >= |ts| then Ok(st)
    else if ts[st.cur].tokenType == Str then
      match HandleAt(ts, st)
      case Raised(e) => Raised(e)
      case Ok(next) => ParseFrom(ts, next)
    else ParseFrom(ts, PState(NextLineStart(ts, st.cur), st.cfg, true))
  }

  /** The whole parse of a token list, from a fresh configuration and the given error flag. */
  function Parse(ts: seq<Token>, err: bool): Outcome<PState> {
    ParseFrom(ts, PState(0, DefaultConfig, err))
  }
}
