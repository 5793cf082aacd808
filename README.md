# oatbuild front end in Dafny

oatbuild reads a build file of one command per line, such as
`SetCompiler(clang)` or `AddFile(main.c, util.c)`, and collects the settings
into a `CompileInfo` record. This project models the front end that does
this, written in Python in `oatbuild.py`. It has three parts:

- **Scanner.** `scan_file` turns each line of the file into tokens:
  - STRING, `(`, `)`, `,` and LINE_END
  - each token records the number of its line
- **Token cursor.** `TokenList` is an append-only list of tokens with a forward-only cursor.
- **Parser.** A recursive-descent parser (`parse_tokens`, `handle_command` and the procedures under them):
  - it recognises fourteen commands
  - it assigns or appends `CompileInfo` settings
  - it records problems in the global `hadError` flag

The model has two layers:

- **Imperative layer.** Each Python object that changes state is a Dafny class, and so is the module-level `hadError` flag:
  - `TokenList`, with `tokens: seq<Token>` and `current: nat`
  - `CompileInfo`, with its fourteen fields
  - `Parser`, whose one field is the global `hadError` flag (oatbuild.py:108, 333), so that the parsing procedures that set it are methods with a `modifies` clause

  The scanning and parsing procedures are methods over these classes. Each method's postcondition ties the new state to a pure function of the old state.

- **Pure layer.** These functions define the behaviour:
  - `Scanner.ScanLine` and `Scanner.ScanLines` for the scanner
  - `Semantics.HandleAt` and `Semantics.ParseFrom` for the parser

  The lemmas in `ScannerProperties`, `ParserProperties` and `Programs` state what the tool promises about these functions.

Python exceptions are modelled as values:

- `Outcomes.Outcome` is either `Ok(v)` or `Raised(e)`.
- The methods return `Status`, which is `Normal` or `Crashed(e)`.
- Two exceptions can occur:
  - IndexError, from `peek` past the end
  - TypeError, from `skip_line(command)` on an unknown command name

Files:

| file | module | models |
|---|---|---|
| outcomes.dfy | `Outcomes` | option, exception and outcome types |
| tokens.dfy | `Tokens` | `TokenType`, `Token`, `TokenList`, and `NextLineStart` (where `skip_line` stops) |
| build_config.dfy | `BuildConfig` | the fourteen settings, the command table, the accepted values, and the `CompileInfo` class |
| scanner.dfy | `Scanner` | `is_valid_character` and `scan_file`: the per-line functions and the two-cursor loop |
| scanner_properties.dfy | `ScannerProperties` | line numbering, LINE_END placement, lexeme coverage, and the first-character behaviour |
| semantics.dfy | `Semantics` | each parsing procedure as a function of the token list, the cursor and the error flag |
| parser.dfy | `Parser` | the parsing procedures as methods over `TokenList`, `CompileInfo` and the `hadError` flag |
| parser_properties.dfy | `ParserProperties` | the grammar, the per-command effects, the recovery behaviour, the crashes, and the frame properties |
| programs.dfy | `Programs` | build files of well-formed statements, and their parse |

### Behaviour of the code that the model keeps

- **Position 0 of a line is examined twice unless it holds a valid character.** Both cursors start at 0 (oatbuild.py:373-374). A valid first character starts a STRING run and the next iteration begins after it; otherwise there are two cases:
  - A line that starts with `(`, `)` or `,` emits that token twice.
  - A line that starts with a character that is neither valid, punctuation nor blank first emits an empty STRING, and then a STRING beginning with that character.
- **Characters are not dropped.** Only the characters after the first of a STRING must be valid (oatbuild.py:389), so a character such as `#` or `"` ends up inside a lexeme; no character other than a blank (space, tab, NUL) or the newline is dropped (`ScannerProperties.ScanLineCovers`).
- **Whitespace-only lines are reported.** A line of only blanks and a newline produces a lone LINE_END (`ScannerProperties.WhitespaceOnlyLine`). The parser reports that LINE_END as a command that does not begin with a string (`ParserProperties.NonStringLineReported`).
- **The next line can be discarded.** Sometimes the token examined as a `(` or `)` is the line's own LINE_END. By then `advance` has already consumed it, so `skip_line` consumes the whole next line (`ParserProperties.BareCommandSkipsNextLine`, `ParserProperties.EmptySetSkipsNextLine`).

## Model

| member | source | states |
|---|---|---|
| Tokens.Lexemes | oatbuild.py:469-470 | the appended strings are the parameters' lexemes, one per parameter, in order |
| Tokens.TokenAt | oatbuild.py:70-76 | what `advance` yields: the token at the index when it exists, `None` exactly when the index is past the end |
| Tokens.NextLineStart | oatbuild.py:84-87 | `skip_line`'s stopping point: just past the first LINE_END at or after the cursor, with no LINE_END skipped before it; with no LINE_END left, one past the later of the cursor and the end |
| Tokens.NextLineStartAtLineEnd | oatbuild.py:84-87 | the first LINE_END at or after the cursor determines exactly where `skip_line` stops |
| Tokens.TokenList.Add | oatbuild.py:67-68 | appends exactly one token, with the given kind, lexeme and line, and leaves the cursor alone |
| Tokens.TokenList.Advance | oatbuild.py:70-76 | raises the cursor by exactly 1 on every call, even past the end; returns `None` exactly when the old cursor was at or past the end, otherwise the token there; the tokens do not change |
| Tokens.TokenList.IsAtEnd | oatbuild.py:81-82 | `is_at_end`: true exactly when the cursor is at or past the end of the list |
| Tokens.TokenList.Peek | oatbuild.py:78-79 | the token under the cursor; raises IndexError exactly when the cursor is at or past the end (there is no bounds check) |
| Tokens.TokenList.SkipLine | oatbuild.py:84-87 | the loop leaves the cursor at `NextLineStart` of the old cursor; the tokens do not change |
| Tokens.TokenList.constructor | oatbuild.py:63-65 | an empty list with the cursor at 0 |
| BuildConfig.CommandNamed | oatbuild.py:416-516 | the fourteen-way dispatch of `handle_command`: the command whose name equals the lexeme exactly, or none for any other lexeme |
| BuildConfig.Accepts | oatbuild.py:425-461 | the values each `Set*` command accepts: any project name; `gcc`, `cl`, `clang`, `clang-cl` for the compiler; `c89`, `c99`, `c11`, `c17`; `32`, `64`; `shared`, `object`, `executable`; `debug`, `release` |
| BuildConfig.CommandNamedInvertsName | oatbuild.py:416-516 | a lexeme selects a command exactly when it is that command's name, compared case-sensitively; no two commands share a name |
| BuildConfig.CommandNamedOfName | oatbuild.py:416-516 | every one of the fourteen commands is selected by its own name |
| BuildConfig.NameOfCommandNamed | oatbuild.py:416-516 | a lexeme that selects a command is that command's name |
| BuildConfig.WithScalar | oatbuild.py:416-464 | a `Set*` assignment: the named setting holds the new value, every other setting and every list is as before |
| BuildConfig.WithAppended | oatbuild.py:466-512 | an `Add*` append: the named list becomes the old list followed by the new values; every other setting is as before |
| BuildConfig.LastWriteWins | oatbuild.py:416-464 | a second `Set*` of the same setting overwrites the first |
| BuildConfig.AppendTwice | oatbuild.py:466-512 | two appends to a list add both runs in order, and nothing is replaced |
| BuildConfig.DefaultConfigLegal | oatbuild.py:90-104 | the initial values (`gcc`, `c99`, `64`, `executable`, `release`) are each among their setting's accepted values |
| BuildConfig.CompileInfo.constructor | oatbuild.py:90-104 | the fresh record holds the defaults: empty project name, `gcc`, `c99`, `64`, `executable`, `release`, and eight empty lists |
| BuildConfig.CompileInfo.SetScalar | oatbuild.py:416-464 | assigns one setting, and nothing else changes |
| BuildConfig.CompileInfo.AppendOne | oatbuild.py:469-470 | one `append` to the named list, and nothing else changes |
| BuildConfig.CompileInfo.AppendLexemes | oatbuild.py:466-512 | the `for param in params` loop: the named list grows by exactly the parameters' lexemes, in order |
| Scanner.IsValidCharacter | oatbuild.py:360-361 | `is_valid_character`: an ASCII letter or digit, or one of `_ - . / \ : =` |
| Scanner.PunctuationToken | oatbuild.py:378-383 | `(`, `)` and `,` become LEFT_PAREN, RIGHT_PAREN and COMMA tokens whose lexeme is that character, on the given line |
| Scanner.RunEnd | oatbuild.py:360-361 | the end of the maximal run of valid characters (ASCII letters and digits and `_ - . / \ : =`) starting at a position: every character in the run is valid and the character after it is not |
| Scanner.ExtendRun | oatbuild.py:389-390 | the inner `while` loop stops at the end of the maximal valid run |
| Scanner.ScanRest | oatbuild.py:376-394 | the tokens the loop emits from a position on once `tokenEnd == tokenStart + 1`: `(`, `)`, `,` and `'\n'` give their tokens, blanks give none, any other character starts a STRING that takes the maximal valid run after it |
| Scanner.FirstPass | oatbuild.py:373-394 | what the first iteration adds in front of the steady-state scan from position 0: punctuation and `'\n'` their token, a blank or valid character nothing extra (a valid character's STRING is the one `ScanRest(line, 0)` yields), any other character an empty STRING |
| Scanner.ScanLine | oatbuild.py:370-394 | one line's tokens: none for a line starting with `'\n'`, otherwise the first iteration's followed by the steady-state scan from position 0 |
| Scanner.ScanLines | oatbuild.py:364-396 | the tokens of all lines in order, line `i` (from 0) scanned with number `i + 1` |
| Scanner.ScanOneLine | oatbuild.py:373-394 | the two-cursor loop over one line appends exactly `ScanLine` of that line: position 0 is examined twice unless it holds a valid character (a valid first character's run is emitted once), and `tokenEnd == tokenStart + 1` at the top of each later iteration |
| Scanner.ScanFile | oatbuild.py:364-396 | the token list holds exactly `ScanLines` of the lines: a line that is exactly `"\n"` is skipped, every other line is scanned with number `index + 1`; the cursor is 0 |
| ScannerProperties.ScanLinesNumbered | oatbuild.py:368-391 | every token carries the number of a line of the file, from 1 to the number of lines, and the numbers never decrease along the list |
| ScannerProperties.ScanLineNumbered | oatbuild.py:379-391 | every token of one line carries that line's number |
| ScannerProperties.NewlineOnlyLineSkipped | oatbuild.py:369-371 | a line that is exactly `"\n"` adds no tokens but still counts: the line after it is numbered two past the line before it |
| ScannerProperties.LineEndPlacement | oatbuild.py:384-385 | a line ending in `'\n'` (and not just `"\n"`) yields exactly one LINE_END, as its last token; a final line without `'\n'` yields none |
| ScannerProperties.WhitespaceOnlyLine | oatbuild.py:384-387 | a line of spaces, tabs and NULs ending in `'\n'` yields a lone LINE_END |
| ScannerProperties.ScanRestCovers | oatbuild.py:376-394 | from any position after the first pass, the concatenated lexemes of the non-LINE_END tokens equal the rest of the line with blanks and `'\n'` deleted |
| ScannerProperties.ScanLineCovers | oatbuild.py:373-394 | for a whole line, the concatenated lexemes equal the line with blanks and `'\n'` deleted, with the first character repeated when it is punctuation; no character is dropped |
| ScannerProperties.StringTokensAreRuns | oatbuild.py:389-391 | every STRING of the steady-state scan from any position (every STRING of a line except the first pass's empty one), including one starting at position 0, is a slice of the line: one character that is not punctuation, blank or `'\n'`, followed by a maximal run of valid characters |
| ScannerProperties.PunctuationFirstTwice | oatbuild.py:373-383 | a line starting with `(`, `)` or `,` begins with that token twice |
| ScannerProperties.UnrecognisedFirstCharacter | oatbuild.py:373-394 | a line starting with a character that is neither valid, punctuation nor blank begins with an empty STRING, then a STRING that starts with that character and continues over a maximal valid run |
| Semantics.Parse | oatbuild.py:398-410 | `parse_tokens` on a whole token list: `ParseFrom` the first token, with a fresh `CompileInfo` and the given error flag |
| Semantics.SimpleParamAt | oatbuild.py:587-602 | `get_simple_command_param` always moves the cursor forward and never clears the error flag |
| Semantics.SimpleCommandAt | oatbuild.py:573-584 | when `simple_command` yields no parameter, the error flag is set, whichever path failed; the cursor moves forward and the flag is never cleared |
| Semantics.ConsumeParamAt | oatbuild.py:552-560 | `consume_param` either raises or stops at a token inside the list, and `result` only grows |
| Semantics.ConsumeCommaAt | oatbuild.py:563-570 | `consume_comma` either raises or stops at a token inside the list, and `result` only grows |
| Semantics.ComplexParamsAt | oatbuild.py:533-549 | `get_complex_command_params` moves the cursor forward when it returns, and never clears the error flag |
| Semantics.ComplexCommandAt | oatbuild.py:519-530 | when `complex_command` yields no parameters, the error flag is set; the cursor moves forward and the flag is never cleared |
| Semantics.ScalarCommandAt | oatbuild.py:416-464 | a `Set*` branch moves the cursor forward and never clears the error flag |
| Semantics.ListCommandAt | oatbuild.py:466-512 | an `Add*` branch that returns moves the cursor forward and never clears the error flag |
| Semantics.HandleAt | oatbuild.py:413-516 | each `handle_command` that returns consumes at least one token and never clears the error flag |
| Semantics.ParseFrom | oatbuild.py:398-410 | a `parse_tokens` run that returns ends with the cursor at or past the end, and never clears the error flag |
| Parser.ConsumeParam | oatbuild.py:552-560 | the recursion over the cursor matches `ConsumeParamAt`: the same exception, or the same parameters and the same cursor; the tokens do not change |
| Parser.ConsumeComma | oatbuild.py:563-570 | the recursion over the cursor matches `ConsumeCommaAt` in the same way |
| Parser.Parser.constructor | oatbuild.py:108 | the flag starts false |
| Parser.Parser.PrintError | oatbuild.py:332-335 | `print_error` sets the flag |
| Parser.Parser.GetSimpleCommandParam | oatbuild.py:587-602 | the three `advance` calls give the parameter, the cursor and the flag of `SimpleParamAt` |
| Parser.Parser.SimpleCommand | oatbuild.py:573-584 | matches `SimpleCommandAt`: parameter, then the line skipped, and the flag set when there is no parameter |
| Parser.Parser.GetComplexCommandParams | oatbuild.py:533-549 | matches `ComplexParamsAt`, including the IndexError raised from inside `consume_param` |
| Parser.Parser.ComplexCommand | oatbuild.py:519-530 | matches `ComplexCommandAt` |
| Parser.Parser.ScalarCommand | oatbuild.py:416-464 | any of the six `Set*` branches, given its setting, changes the cursor, the `CompileInfo` and the flag exactly as `ScalarCommandAt` says |
| Parser.Parser.ListCommand | oatbuild.py:466-512 | any of the eight `Add*` branches, given its list, changes them exactly as `ListCommandAt` says, or reports its IndexError |
| Parser.Parser.HandleCommand | oatbuild.py:413-516 | the fourteen-way dispatch agrees with `HandleAt`, including the TypeError on an unknown name |
| Parser.Parser.ParseTokens | oatbuild.py:398-410 | the `while` loop from a fresh `CompileInfo` computes `ParseFrom`: the same final settings, cursor and flag, or the same exception |
| ParserProperties.AltLenIsLongestRun | oatbuild.py:552-570 | the run measured for `consume_param` and `consume_comma` alternates STRING and COMMA, and the next token does not continue it |
| ParserProperties.ConsumeIsAlternation | oatbuild.py:552-570 | the two procedures take the longest STRING/COMMA alternation and keep its STRINGs in order; when the alternation reaches the end of the list, the next `peek` raises IndexError |
| ParserProperties.ComplexParamsShape | oatbuild.py:533-549 | `get_complex_command_params` in full: a missing `(` is reported; a run that reaches the end raises; an empty run returns nothing without a report; a missing `)` is reported; otherwise the STRINGs of the run are returned. So parameters match STRING (`,` STRING)* with at most one trailing `,` |
| ParserProperties.ComplexParamsWellFormed | oatbuild.py:533-549 | on `( s , ... )` with a run of `k` tokens, the parameters are the run's STRINGs, and the cursor is just past the `)` |
| ParserProperties.TrailingCommaAccepted | oatbuild.py:539-549 | `(a,)` is accepted, with the single parameter `a` |
| ParserProperties.SetCommandWellFormed | oatbuild.py:416-464 | `Set*` on `X ( t )`: the setting takes `t`'s lexeme when that value is accepted; otherwise nothing changes and the flag is set; the line is skipped from just past the `)` |
| ParserProperties.ProjectNameTakesAnyToken | oatbuild.py:593-602 | `SetProjectName` stores the lexeme of whatever single token follows `(`, a comma included, and changes nothing else |
| ParserProperties.SetCommandMalformed | oatbuild.py:573-602 | any other `Set*` line changes no setting and sets the flag; the line skip starts just past the last token examined |
| ParserProperties.ListCommandWellFormed | oatbuild.py:519-549 | the `Add*` branch on a well-formed parameter list appends the lexemes in order, and leaves the flag alone |
| ParserProperties.AddCommandWellFormed | oatbuild.py:466-512 | `Add*` on `X ( s , s , ... )` makes its list the old list followed by the parameters' lexemes, in order; the flag is untouched; the cursor is at the next line |
| ParserProperties.AddCommandEmpty | oatbuild.py:541-543 | `X()` leaves the configuration unchanged and sets the flag |
| ParserProperties.ListCommandMalformed | oatbuild.py:519-549 | an `Add*` branch that returns on anything but a well-formed list changes no setting and sets the flag |
| ParserProperties.AddCommandMalformed | oatbuild.py:519-549 | an `Add*` command that returns on anything but a well-formed list changes no setting and sets the flag |
| ParserProperties.AddCommandRunsOffEnd | oatbuild.py:552-570 | an `Add*` command whose parameter run reaches the end of the tokens (such as `AddFile(` at the end of a file without a newline) raises IndexError |
| ParserProperties.UnknownCommandRaises | oatbuild.py:514-516 | an unknown command name raises TypeError, both in `handle_command` and in the whole parse |
| ParserProperties.BareCommandSkipsNextLine | oatbuild.py:534-537 | a known command with nothing after it on its line sets the flag, changes nothing, and resumes after the following line, which is discarded |
| ParserProperties.EmptySetSkipsNextLine | oatbuild.py:593-600 | `Set*` written `X()` takes `)` as the value, examines the LINE_END as the `)`, and discards the following line |
| ParserProperties.NonStringLineReported | oatbuild.py:404-408 | a line that does not start with a STRING sets the flag and is skipped; a lone LINE_END (a whitespace-only line) is skipped by itself |
| ParserProperties.EvolvesTransitive | oatbuild.py:398-410 | the allowed changes compose over successive commands |
| ParserProperties.HandleTouchesOnlyNamedSetting | oatbuild.py:413-512 | one command leaves every setting and list it does not name unchanged; lists only grow at their end; a changed setting holds an accepted value |
| ParserProperties.ParseEvolves | oatbuild.py:398-410 | over a whole parse, lists only grow and each setting either keeps its value or takes an accepted one |
| ParserProperties.ParsedSettingsLegal | oatbuild.py:398-464 | after any parse that does not raise, every setting holds an accepted value: the compiler is one of `gcc`, `cl`, `clang`, `clang-cl`, and so on |
| Programs.ValuesAlternate | oatbuild.py:552-570 | `a , b , c` followed by `)` is exactly the run that `consume_param` takes: its length is twice the number of values less one |
| Programs.ValuesLexemes | oatbuild.py:552-570 | the parameters collected from `a , b , c` have the lexemes `a`, `b`, `c`, in that order |
| Programs.ListLineBranch | oatbuild.py:519-549 | the `Add*` branch on `( a , b , c )` and the LINE_END appends exactly `a`, `b`, `c` to its list, leaves the flag alone and stops at the next line |
| Programs.HandleSetLine | oatbuild.py:416-464 | a well-formed `Set*` line assigns its value, leaves the flag alone and stops at the next line |
| Programs.HandleListLine | oatbuild.py:466-512 | a well-formed `Add*` line appends its values in order, leaves the flag alone and stops at the next line |
| Programs.HandleLine | oatbuild.py:413-512 | one well-formed statement line is parsed as that statement's effect on the configuration, with the flag untouched and the cursor at the start of the next line |
| Programs.ParseLinesFrom | oatbuild.py:398-410 | lines of well-formed statements that fill the rest of the token list are parsed as the statements applied in order, and nothing is reported |
| Programs.ParseBuildLines | oatbuild.py:398-410 | a build file of well-formed statement lines, from the default configuration, yields the defaults with the statements applied, and no error |

## Left out

- The command line and running the build are not modelled: `main`, argument handling, `print_help`, exit codes, `os.system` and timing (oatbuild.py:110-147, 338-357). They are process I/O.
- Assembling the compiler command line is not modelled (oatbuild.py:150-329). Every extension it picks depends on `platform.system()`, a host query, and it makes no parsing decisions; the model stops at the finished configuration.
- Opening the build file and its `OSError` are not modelled (oatbuild.py:124-128, 367). `Scanner.ScanFile` takes the lines that iterating over the file yields. Each line is non-empty, and `'\n'` can only be its last character.
- Diagnostic text and stderr output are not modelled. Only the `hadError` flag is kept; the `hadError == True` tests at oatbuild.py:521 and 575 only suppress message text.
- Scanner.IsValidCharacter: Python's `str.isalnum` accepts all Unicode letters and digits; the model accepts only ASCII letters and digits, plus `_ - . / \ : =`.
- Python's recursion-depth limit on the mutual recursion of `consume_param` and `consume_comma` is not modelled; in the model the recursion is unbounded.
- The `Token.print` debugging helper (oatbuild.py:45-59) is not modelled.
- The `== None` checks after `peek` (oatbuild.py:554, 565) can never succeed, because `peek` returns a token or raises; the model has no path for them.
- Parser.Parser.HandleCommand: the `if`/`elif` chain is written out in the method. The semantics function instead looks the lexeme up in `BuildConfig.CommandNamed`, and `BuildConfig.CommandNamedInvertsName` proves that lookup exact.
- Parser.ConsumeParam: the `result` list that Python mutates in place is threaded through the calls as a value, and the final list is returned.
- Parser.Parser.HandleCommand: when an exception is raised, the postcondition says which one, but not the state of the cursor and configuration at that moment. The Python program does not recover from either exception.
- Programs.ParseBuildLines: the whole-file parse is stated for token lists laid out as statement lines (as the scanner produces them from such a file), not for the file's characters.
