/** The build configuration the parser fills in, and the table of commands. */
module BuildConfig {
  import opened Outcomes
  import opened Tokens

  /** The value of a `CompileInfo`: six scalar settings and eight ordered lists. */
  datatype Config = Config(
    projectName: string,
    compiler: string,
    languageVersion: string,
    arch: string,
    outputType: string,
    buildType: string,
    files: seq<string>,
    sourcePaths: seq<string>,
    constants: seq<string>,
    includePaths: seq<string>,
    libraries: seq<string>,
    objectFiles: seq<string>,
    compilerFlags: seq<string>,
    linkerFlags: seq<string>)

  /** The settings of a fresh `CompileInfo`. */
  const DefaultConfig := Config("", "gcc", "c99", "64", "executable", "release",
                                [], [], [], [], [], [], [], [])

  const Compilers: set<string> := {"gcc", "cl", "clang", "clang-cl"}
  const LanguageVersions: set<string> := {"c89", "c99", "c11", "c17"}
  const Architectures: set<string> := {"32", "64"}
  const OutputTypes: set<string> := {"shared", "object", "executable"}
  const BuildTypes: set<string> := {"debug", "release"}

  /** The scalar settings, one per `Set*` command. */
  datatype Scalar = ProjectName | Compiler | LanguageVersion | TargetArch | OutputType | BuildType

  /** The list settings, one per `Add*` command. */
  datatype ListField = Files | SourcePaths | Constants | IncludePaths | Libraries | ObjectFiles | CompilerFlags | LinkerFlags

  /** The fourteen commands of a build file. */
  datatype Command = SetCommand(field: Scalar) | AddCommand(list: ListField)

  /** The name a command is written with in a build file. */
  function CommandName(cmd: Command): string {
    match cmd
    case SetCommand(ProjectName) => "SetProjectName"
    case SetCommand(Compiler) => "SetCompiler"
    case SetCommand(LanguageVersion) => "SetLanguageVersion"
    case SetCommand(TargetArch) => "SetTargetArch"
    case SetCommand(OutputType) => "SetOutputType"
    case SetCommand(BuildType) => "SetBuildType"
    case AddCommand(Files) => "AddFile"
    case AddCommand(SourcePaths) => "AddSourcePath"
    case AddCommand(Constants) => "AddConstant"
    case AddCommand(IncludePaths) => "AddIncludePath"
    case AddCommand(Libraries) => "AddLibrary"
    case AddCommand(ObjectFiles) => "AddObjectFile"
    case AddCommand(CompilerFlags) => "AddCompilerFlag"
    case AddCommand(LinkerFlags) => "AddLinkerFlag"
  }

  /** The command a name dispatches to: an exact, case-sensitive match, or `None`. */
  function CommandNamed(name: string): Option<Command> {
    if name == "SetProjectName" then Some(SetCommand(ProjectName))
    else if name == "SetCompiler" then Some(SetCommand(Compiler))
    else if name == "SetLanguageVersion" then Some(SetCommand(LanguageVersion))
    else if name == "SetTargetArch" then Some(SetCommand(TargetArch))
    else if name == "SetOutputType" then Some(SetCommand(OutputType))
    else if name == "SetBuildType" then Some(SetCommand(BuildType))
    else if name == "AddFile" then Some(AddCommand(Files))
    else if name == "AddSourcePath" then Some(AddCommand(SourcePaths))
    else if name == "AddConstant" then Some(AddCommand(Constants))
    else if name == "AddIncludePath" then Some(AddCommand(IncludePaths))
    else if name == "AddLibrary" then Some(AddCommand(Libraries))
    else if name == "AddObjectFile" then Some(AddCommand(ObjectFiles))
    else if name == "AddCompilerFlag" then Some(AddCommand(CompilerFlags))
    else if name == "AddLinkerFlag" then Some(AddCommand(LinkerFlags))
    else None
  }

  /** Looking a name up finds the command exactly when the name is that command's. */
  lemma {:induction false} CommandNamedInvertsName(name: string, cmd: Command)
    ensures CommandNamed(name) == Some(cmd) <==> name == CommandName(cmd)
  {
    if name == CommandName(cmd) {
      CommandNamedOfName(cmd);
    }
    if CommandNamed(name) == Some(cmd) {
      NameOfCommandNamed(name);
    }
  }

  /** Every command's own name dispatches to it. */
  lemma {:induction false} CommandNamedOfName(cmd: Command)
    ensures CommandNamed(CommandName(cmd)) == Some(cmd)
  {
    match cmd
    case SetCommand(f) => SetCommandNamedOfName(f);
    case AddCommand(l) => AddCommandNamedOfName(l);
  }

  lemma {:induction false} SetCommandNamedOfName(f: Scalar)
    ensures CommandNamed(CommandName(SetCommand(f))) == Some(SetCommand(f))
  {
    match f
    case ProjectName =>
    case Compiler =>
    case LanguageVersion =>
    case TargetArch =>
    case OutputType =>
    case BuildType =>
  }

  lemma {:induction false} AddCommandNamedOfName(l: ListField)
    ensures CommandNamed(CommandName(AddCommand(l))) == Some(AddCommand(l))
  {
    match l
    case Files =>
    case SourcePaths =>
    case Constants =>
    case IncludePaths =>
    case Libraries =>
    case ObjectFiles =>
    case CompilerFlags =>
    case LinkerFlags =>
  }

  /** A name that dispatches to a command is that command's name. */
  lemma {:induction false} NameOfCommandNamed(name: string)
    requires CommandNamed(name).Some?
    ensures CommandName(CommandNamed(name).value) == name
  {
    if name == "SetProjectName" {
    } else if name == "SetCompiler" {
    } else if name == "SetLanguageVersion" {
    } else if name == "SetTargetArch" {
    } else if name == "SetOutputType" {
    } else if name == "SetBuildType" {
    } else if name == "AddFile" {
    } else if name == "AddSourcePath" {
    } else if name == "AddConstant" {
    } else if name == "AddIncludePath" {
    } else if name == "AddLibrary" {
    } else if name == "AddObjectFile" {
    } else if name == "AddCompilerFlag" {
    } else {
      assert name == "AddLinkerFlag";
    }
  }

  /** Whether `Set*` accepts a value; `SetProjectName` accepts any. */
  predicate Accepts(field: Scalar, v: string) {
    match field
    case ProjectName => true
    case Compiler => v in Compilers
    case LanguageVersion => v in LanguageVersions
    case TargetArch => v in Architectures
    case OutputType => v in OutputTypes
    case BuildType => v in BuildTypes
  }

  function ScalarOf(cfg: Config, field: Scalar): string {
    match field
    case ProjectName => cfg.projectName
    case Compiler => cfg.compiler
    case LanguageVersion => cfg.languageVersion
    case TargetArch => cfg.arch
    case OutputType => cfg.outputType
    case BuildType => cfg.buildType
  }

  function ListOf(cfg: Config, list: ListField): seq<string> {
    match list
    case Files => cfg.files
    case SourcePaths => cfg.sourcePaths
    case Constants => cfg.constants
    case IncludePaths => cfg.includePaths
    case Libraries => cfg.libraries
    case ObjectFiles => cfg.objectFiles
    case CompilerFlags => cfg.compilerFlags
    case LinkerFlags => cfg.linkerFlags
  }

  /** Assigning one scalar setting: that one holds `v`, every other setting is as before. */
  function WithScalar(cfg: Config, field: Scalar, v: string): (r: Config)
    ensures ScalarOf(r, field) == v
    ensures forall g :: g != field ==> ScalarOf(r, g) == ScalarOf(cfg, g)
    ensures forall l :: ListOf(r, l) == ListOf(cfg, l)
  {
    match field
    case ProjectName => cfg.(projectName := v)
    case Compiler => cfg.(compiler := v)
    case LanguageVersion => cfg.(languageVersion := v)
    case TargetArch => cfg.(arch := v)
    case OutputType => cfg.(outputType := v)
    case BuildType => cfg.(buildType := v)
  }

  /** Appending to one list setting: that one grows by `vs` at its end, every other setting is as before. */
  function WithAppended(cfg: Config, list: ListField, vs: seq<string>): (r: Config)
    ensures ListOf(r, list) == ListOf(cfg, list) + vs
    ensures forall l :: l != list ==> ListOf(r, l) == ListOf(cfg, l)
    ensures forall g :: ScalarOf(r, g) == ScalarOf(cfg, g)
  {
    match list
    case Files => cfg.(files := cfg.files + vs)
    case SourcePaths => cfg.(sourcePaths := cfg.sourcePaths + vs)
    case Constants => cfg.(constants := cfg.constants + vs)
    case IncludePaths => cfg.(includePaths := cfg.includePaths + vs)
    case Libraries => cfg.(libraries := cfg.libraries + vs)
    case ObjectFiles => cfg.(objectFiles := cfg.objectFiles + vs)
    case CompilerFlags => cfg.(compilerFlags := cfg.compilerFlags + vs)
    case LinkerFlags => cfg.(linkerFlags := cfg.linkerFlags + vs)
  }

  /** A second `Set*` of the same setting overwrites the first. */
  lemma {:induction false} LastWriteWins(cfg: Config, field: Scalar, a: string, b: string)
    ensures WithScalar(WithScalar(cfg, field, a), field, b) == WithScalar(cfg, field, b)
  {
    match field
    case ProjectName =>
    case Compiler =>
    case LanguageVersion =>
    case TargetArch =>
    case OutputType =>
    case BuildType =>
  }

  /** Appending twice to a list setting appends both runs in order; nothing is replaced. */
  lemma {:induction false} AppendTwice(cfg: Config, list: ListField, a: seq<string>, b: seq<string>)
    ensures WithAppended(WithAppended(cfg, list, a), list, b) == WithAppended(cfg, list, a + b)
  {
    var once := WithAppended(cfg, list, a);
    var twice := WithAppended(once, list, b);
    var whole := WithAppended(cfg, list, a + b);
    assert ListOf(twice, list) == ListOf(cfg, list) + a + b;
    assert ListOf(cfg, list) + a + b == ListOf(cfg, list) + (a + b);
    match list
    case Files =>
    case SourcePaths =>
    case Constants =>
    case IncludePaths =>
    case Libraries =>
    case ObjectFiles =>
    case CompilerFlags =>
    case LinkerFlags =>
  }

  /** Every scalar setting holds a value its `Set*` command accepts. */
  predicate ScalarsLegal(cfg: Config) {
    forall f :: Accepts(f, ScalarOf(cfg, f))
  }

  lemma {:induction false} DefaultConfigLegal()
    ensures ScalarsLegal(DefaultConfig)
  {
    forall f ensures Accepts(f, ScalarOf(DefaultConfig, f)) {
      match f
      case ProjectName =>
      case Compiler => assert "gcc" in Compilers;
      case LanguageVersion => assert "c99" in LanguageVersions;
      case TargetArch => assert "64" in Architectures;
      case OutputType => assert "executable" in OutputTypes;
      case BuildType => assert "release" in BuildTypes;
    }
  }

  /** The mutable record the parser fills in, field by field. */
  class CompileInfo {
    var projectName: string
    var compiler: string
    var languageVersion: string
    var arch: string
    var outputType: string
    var buildType: string
    var files: seq<string>
    var sourcePaths: seq<string>
    var constants: seq<string>
    var includePaths: seq<string>
    var libraries: seq<string>
    var objectFiles: seq<string>
    var compilerFlags: seq<string>
    var linkerFlags: seq<string>

    /** The settings as a value. */
    function Value(): Config
      reads this
    {
      Config(projectName, compiler, languageVersion, arch, outputType, buildType,
             files, sourcePaths, constants, includePaths, libraries, objectFiles,
             compilerFlags, linkerFlags)
    }

    constructor ()
      ensures Value() == DefaultConfig
    {
      projectName := "";
      compiler := "gcc";
      languageVersion := "c99";
      arch := "64";
      outputType := "executable";
      buildType := "release";
      files := [];
      sourcePaths := [];
      constants := [];
      includePaths := [];
      libraries := [];
      objectFiles := [];
      compilerFlags := [];
      linkerFlags := [];
    }

    /** The assignment a `Set*` branch makes. */
    method SetScalar(field: Scalar, v: string)
      modifies this
      ensures Value() == WithScalar(old(Value()), field, v)
    {
      match field
      case ProjectName => projectName := v;
      case Compiler => compiler := v;
      case LanguageVersion => languageVersion := v;
      case TargetArch => arch := v;
      case OutputType => outputType := v;
      case BuildType => buildType := v;
    }

    /** `list.append(x)` on one list setting. */
    method AppendOne(list: ListField, x: string)
      modifies this
      ensures Value() == WithAppended(old(Value()), list, [x])
    {
      match list
      case Files => files := files + [x];
      case SourcePaths => sourcePaths := sourcePaths + [x];
      case Constants => constants := constants + [x];
      case IncludePaths => includePaths := includePaths + [x];
      case Libraries => libraries := libraries + [x];
      case ObjectFiles => objectFiles := objectFiles + [x];
      case CompilerFlags => compilerFlags := compilerFlags + [x];
      case LinkerFlags => linkerFlags := linkerFlags + [x];
    }

    /** The `for param in params: list.append(param.lexeme)` loop of an `Add*` branch. */
    method AppendLexemes(list: ListField, params: seq<Token>)
      modifies this
      ensures Value() == WithAppended(old(Value()), list, Lexemes(params))
    {
      for i := 0 to |params|
        invariant Value() == WithAppended(old(Value()), list, Lexemes(params[..i]))
      {
        assert params[..i + 1] == params[..i] + [params[i]];
        LexemesSnoc(params[..i], params[i]);
        AppendTwice(old(Value()), list, Lexemes(params[..i]), [params[i].lexeme]);
        AppendOne(list, params[i].lexeme);
      }
      assert params[..|params|] == params;
    }
  }
}
