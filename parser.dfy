/**
 * The recursive-descent parser as the program runs it: procedures that move
 * the token cursor, append to parameter lists and set the error flag, each
 * proved to do what its function in `Semantics` says.
 */
module Parser {
  import opened Outcomes
  import opened Tokens
  import opened BuildConfig
  import opened Semantics

  /** `consume_param`: peek (raising past the end); on a STRING take it and go on with `consume_comma`. */
  method ConsumeParam(tokenList: TokenList, result: seq<Token>) returns (r: Outcome<seq<Token>>)
    modifies tokenList
    ensures tokenList.tokens == old(tokenList.tokens)
    ensures match ConsumeParamAt(old(tokenList.tokens), old(tokenList.current), result)
      case Ok(p) => r == Ok(p.params) && tokenList.current == p.cur
      case Raised(e) => r == Raised(e)
    decreases |tokenList.tokens| - tokenList.current
  {
    var param := tokenList.Peek();
    if param.Raised? {
      return Raised(param.exc);
    }
    if param.value.tokenType == Str {
      var _ := tokenList.Advance();
      r := ConsumeComma(tokenList, result + [param.value]);
    } else {
      r := Ok(result);
    }
  }

  /** `consume_comma`: peek (raising past the end); on a COMMA take it and go on with `consume_param`. */
  method ConsumeComma(tokenList: TokenList, result: seq<Token>) returns (r: Outcome<seq<Token>>)
    modifies tokenList
    ensures tokenList.tokens == old(tokenList.tokens)
    ensures match ConsumeCommaAt(old(tokenList.tokens), old(tokenList.current), result)
      case Ok(p) => r == Ok(p.params) && tokenList.current == p.cur
      case Raised(e) => r == Raised(e)
    decreases |tokenList.tokens| - tokenList.current
  {
    var comma := tokenList.Peek();
    if comma.Raised? {
      return Raised(comma.exc);
    }
    if comma.value.tokenType == Comma {
      var _ := tokenList.Advance();
      r := ConsumeParam(tokenList, result);
    } else {
      r := Ok(result);
    }
  }

  /** The parser's process-wide error flag and the procedures that set it. */
  class Parser {
    var hadError: bool

    constructor ()
      ensures !hadError
    {
      hadError := false;
    }

    /** `print_error`, less the message: the flag is raised. */
    method PrintError()
      modifies this
      ensures hadError
    {
      hadError := true;
    }

    method GetSimpleCommandParam(tokenList: TokenList, command: Token) returns (param: Option<Token>)
      modifies this, tokenList
      ensures tokenList.tokens == old(tokenList.tokens)
      ensures var s := SimpleParamAt(old(tokenList.tokens), old(tokenList.current), old(hadError));
        param == s.value && tokenList.current == s.cur && hadError == s.err
    {
      var lparen := tokenList.Advance();
      if lparen.None? || lparen.value.tokenType != LeftParen {
        PrintError();
        return None;
      }
      param := tokenList.Advance();
      if param.None? {
        return None;
      }
      var rparen := tokenList.Advance();
      if rparen.None? || rparen.value.tokenType != RightParen {
        PrintError();
        return None;
      }
    }

    method SimpleCommand(tokenList: TokenList, command: Token) returns (param: Option<Token>)
      modifies this, tokenList
      ensures tokenList.tokens == old(tokenList.tokens)
      ensures var s := SimpleCommandAt(old(tokenList.tokens), old(tokenList.current), old(hadError));
        param == s.value && tokenList.current == s.cur && hadError == s.err
    {
      param := GetSimpleCommandParam(tokenList, command);
      if param.None? && hadError {
        tokenList.SkipLine();
      } else if param.None? {
        PrintError();
        tokenList.SkipLine();
      } else {
        tokenList.SkipLine();
        return param;
      }
      return None;
    }

    method GetComplexCommandParams(tokenList: TokenList, command: Token) returns (r: Outcome<Option<seq<Token>>>)
      modifies this, tokenList
      ensures tokenList.tokens == old(tokenList.tokens)
      ensures match ComplexParamsAt(old(tokenList.tokens), old(tokenList.current), old(hadError))
        case Ok(s) => r == Ok(s.value) && tokenList.current == s.cur && hadError == s.err
        case Raised(e) => r == Raised(e)
    {
      var lparen := tokenList.Advance();
      if lparen.None? || lparen.value.tokenType != LeftParen {
        PrintError();
        return Ok(None);
      }
      var params := ConsumeParam(tokenList, []);
      if params.Raised? {
        return Raised(params.exc);
      }
      if |params.value| == 0 {
        return Ok(None);
      }
      var rparen := tokenList.Advance();
      if rparen.None? || rparen.value.tokenType != RightParen {
        PrintError();
        return Ok(None);
      }
      return Ok(Some(params.value));
    }

    method ComplexCommand(tokenList: TokenList, command: Token) returns (r: Outcome<Option<seq<Token>>>)
      modifies this, tokenList
      ensures tokenList.tokens == old(tokenList.tokens)
      ensures match ComplexCommandAt(old(tokenList.tokens), old(tokenList.current), old(hadError))
        case Ok(s) => r == Ok(s.value) && tokenList.current == s.cur && hadError == s.err
        case Raised(e) => r == Raised(e)
    {
      var params := GetComplexCommandParams(tokenList, command);
      if params.Raised? {
        return params;
      }
      if params.value.None? && hadError {
        tokenList.SkipLine();
      } else if params.value.None? {
        PrintError();
        tokenList.SkipLine();
      } else {
        tokenList.SkipLine();
        return params;
      }
      return Ok(None);
    }

    /**
     * A `Set*` branch of `handle_command`: the parameter is validated against
     * the setting's legal values (`SetProjectName` takes any) and stored, or
     * the error is reported.
     */
    method ScalarCommand(tokenList: TokenList, compileInfo: CompileInfo, command: Token, field: Scalar)
      modifies this, tokenList, compileInfo
      ensures tokenList.tokens == old(tokenList.tokens)
      ensures var st := ScalarCommandAt(old(tokenList.tokens), PState(old(tokenList.current), old(compileInfo.Value()), old(hadError)), field);
        tokenList.current == st.cur && compileInfo.Value() == st.cfg && hadError == st.err
    {
      var param := SimpleCommand(tokenList, command);
      if param.Some? {
        var value := param.value.lexeme;
        if Accepts(field, value) {
          compileInfo.SetScalar(field, value);
        } else {
          PrintError();
        }
      }
    }

    /** An `Add*` branch of `handle_command`: every parameter's lexeme is appended to the list. */
    method ListCommand(tokenList: TokenList, compileInfo: CompileInfo, command: Token, list: ListField) returns (status: Status)
      modifies this, tokenList, compileInfo
      ensures tokenList.tokens == old(tokenList.tokens)
      ensures match ListCommandAt(old(tokenList.tokens), PState(old(tokenList.current), old(compileInfo.Value()), old(hadError)), list)
        case Ok(st) =>
          status == Normal && tokenList.current == st.cur && compileInfo.Value() == st.cfg && hadError == st.err
        case Raised(e) => status == Crashed(e)
    {
      var params := ComplexCommand(tokenList, command);
      if params.Raised? {
        return Crashed(params.exc);
      }
      if params.value.Some? {
        compileInfo.AppendLexemes(list, params.value.value);
      }
      return Normal;
    }

    /** `handle_command`: the STRING under the cursor names the command, compared case-sensitively. */
    method HandleCommand(tokenList: TokenList, compileInfo: CompileInfo) returns (status: Status)
      requires tokenList.current < |tokenList.tokens|
      requires tokenList.tokens[tokenList.current].tokenType == Str
      modifies this, tokenList, compileInfo
      ensures tokenList.tokens == old(tokenList.tokens)
      ensures match HandleAt(old(tokenList.tokens), PState(old(tokenList.current), old(compileInfo.Value()), old(hadError)))
        case Ok(st) =>
          status == Normal && tokenList.current == st.cur && compileInfo.Value() == st.cfg && hadError == st.err
        case Raised(e) => status == Crashed(e)
    {
      var next := tokenList.Advance();
      var command := next.value;
      status := Normal;
      if command.lexeme == "SetProjectName" {
        ScalarCommand(tokenList, compileInfo, command, ProjectName);
      } else if command.lexeme == "SetCompiler" {
        ScalarCommand(tokenList, compileInfo, command, Compiler);
      } else if command.lexeme == "SetLanguageVersion" {
        ScalarCommand(tokenList, compileInfo, command, LanguageVersion);
      } else if command.lexeme == "SetTargetArch" {
        ScalarCommand(tokenList, compileInfo, command, TargetArch);
      } else if command.lexeme == "SetOutputType" {
        ScalarCommand(tokenList, compileInfo, command, OutputType);
      } else if command.lexeme == "SetBuildType" {
        ScalarCommand(tokenList, compileInfo, command, BuildType);
      } else if command.lexeme == "AddFile" {
        status := ListCommand(tokenList, compileInfo, command, Files);
      } else if command.lexeme == "AddSourcePath" {
        status := ListCommand(tokenList, compileInfo, command, SourcePaths);
      } else if command.lexeme == "AddConstant" {
        status := ListCommand(tokenList, compileInfo, command, Constants);
      } else if command.lexeme == "AddIncludePath" {
        status := ListCommand(tokenList, compileInfo, command, IncludePaths);
      } else if command.lexeme == "AddLibrary" {
        status := ListCommand(tokenList, compileInfo, command, Libraries);
      } else if command.lexeme == "AddObjectFile" {
        status := ListCommand(tokenList, compileInfo, command, ObjectFiles);
      } else if command.lexeme == "AddCompilerFlag" {
        status := ListCommand(tokenList, compileInfo, command, CompilerFlags);
      } else if command.lexeme == "AddLinkerFlag" {
        status := ListCommand(tokenList, compileInfo, command, LinkerFlags);
      } else {
        PrintError();
        status := Crashed(TypeError);
      }
    }

    /**
     * `parse_tokens`: a fresh configuration, filled in command by command until
     * the cursor reaches the end, unless an exception escapes.
     */
    method ParseTokens(tokenList: TokenList) returns (compileInfo: CompileInfo, status: Status)
      modifies this, tokenList
      ensures fresh(compileInfo)
      ensures tokenList.tokens == old(tokenList.tokens)
      ensures match ParseFrom(old(tokenList.tokens), PState(old(tokenList.current), DefaultConfig, old(hadError)))
        case Ok(st) =>
          status == Normal && tokenList.current == st.cur && compileInfo.Value() == st.cfg && hadError == st.err
        case Raised(e) => status == Crashed(e)
    {
      compileInfo := new CompileInfo();
      ghost var goal := ParseFrom(tokenList.tokens, PState(tokenList.current, DefaultConfig, hadError));
      while !tokenList.IsAtEnd()
        invariant tokenList.tokens == old(tokenList.tokens)
        invariant ParseFrom(tokenList.tokens, PState(tokenList.current, compileInfo.Value(), hadError)) == goal
        decreases |tokenList.tokens| - tokenList.current
      {
        var token := tokenList.Peek().value;
        if token.tokenType == Str {
          status := HandleCommand(tokenList, compileInfo);
          if status.Crashed? {
            return;
          }
        } else {
          PrintError();
          tokenList.SkipLine();
        }
      }
      status := Normal;
    }
  }
}
