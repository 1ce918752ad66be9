/**
 * The generation pipeline of pkg/configen/repository.go: load the folder's
 * config.yaml, pick the engine, render, then run the named post-processors in
 * order. The file system, the YAML decoder, the template engine and the two
 * JSON formatters are passed in as functions.
 */
module ConfigenRepository {
  import opened Wrappers
  import opened ConfigenModel
  import opened PostProcessors

  /** What reading a file yields: it cannot be opened, reading it fails, or its bytes. */
  datatype FileRead = OpenFailed | ReadFailed(cause: string) | Read(contents: seq<byte>)

  /** The generation engines; Go's text/template is the only one. */
  datatype EngineKind = GoEngine

  /** newEngine: "golang" and "" select the Go engine, any other name is an unknown engine. */
  function NewEngine(name: string): (r: Result<EngineKind, Error>)
    ensures r.Success? <==> name == EngineGolang || name == ""
    ensures r.Success? ==> r.value == GoEngine
    ensures r.Failure? ==> r.error.Is(ErrEngineNotFound) && r.error == WithMessage(ErrEngineNotFound, name)
  {
    if name == EngineGolang || name == "" then Success(GoEngine)
    else Failure(WithMessage(ErrEngineNotFound, name))
  }

  /** Where a template folder's descriptor lives: `config.yaml` in the folder below the template root. */
  function ConfigFilePath(templatePath: string, templateFolder: string): (p: string)
    ensures |p| == |templatePath| + 1 + |templateFolder| + |"/config.yaml"|
    ensures p[..|templatePath|] == templatePath && p[|templatePath|] == '/'
    ensures p[|templatePath| + 1..|templatePath| + 1 + |templateFolder|] == templateFolder
    ensures p[|templatePath| + 1 + |templateFolder|..] == "/config.yaml"
  {
    templatePath + "/" + templateFolder + "/config.yaml"
  }

  /** Turns the patterns of a decoded config into paths below the template root. */
  function ResolvePatterns(config: TemplateConfig, templatePath: string, templateFolder: string): (c: TemplateConfig)
    ensures config.mainPattern == "" ==> c.mainPattern == ""
    ensures config.mainPattern != "" ==> c.mainPattern == templatePath + "/" + templateFolder + "/" + config.mainPattern
    ensures config.includePattern == "" ==> c.includePattern == ""
    ensures config.includePattern != "" ==> c.includePattern == templatePath + "/" + config.includePattern
    ensures c.templateEngine == config.templateEngine && c.mainTemplate == config.mainTemplate
    ensures c.postProcessors == config.postProcessors && c.outputFormat == config.outputFormat
  {
    var c := if |config.mainPattern| > 0
      then config.(mainPattern := templatePath + "/" + templateFolder + "/" + config.mainPattern)
      else config;
    if |c.includePattern| > 0 then c.(includePattern := templatePath + "/" + c.includePattern) else c
  }

  /** parseConfigFile */
  function ParseConfigFile(
    templatePath: string,
    templateFolder: string,
    fs: string -> FileRead,
    decode: seq<byte> -> Result<TemplateConfig, string>): (r: Result<TemplateConfig, Error>)
    ensures fs(ConfigFilePath(templatePath, templateFolder)).OpenFailed? <==> r.Failure? && r.error.Is(ErrTemplateConfigNotFound)
    ensures fs(ConfigFilePath(templatePath, templateFolder)).OpenFailed? ==>
      r == Failure(WithMessage(ErrTemplateConfigNotFound, ConfigFilePath(templatePath, templateFolder)))
    ensures fs(ConfigFilePath(templatePath, templateFolder)).ReadFailed? ==>
      r == Failure(Cause(fs(ConfigFilePath(templatePath, templateFolder)).cause))
    ensures var f := fs(ConfigFilePath(templatePath, templateFolder));
      f.Read? && decode(f.contents).Failure? ==> r == Failure(Cause(decode(f.contents).error))
    ensures r.Success? <==>
      fs(ConfigFilePath(templatePath, templateFolder)).Read? &&
      decode(fs(ConfigFilePath(templatePath, templateFolder)).contents).Success?
    ensures r.Success? ==>
      r.value == ResolvePatterns(decode(fs(ConfigFilePath(templatePath, templateFolder)).contents).value, templatePath, templateFolder)
  {
    var configFile := ConfigFilePath(templatePath, templateFolder);
    match fs(configFile)
    case OpenFailed => Failure(WithMessage(ErrTemplateConfigNotFound, configFile))
    case ReadFailed(cause) => Failure(Cause(cause))
    case Read(contents) =>
      match decode(contents)
      case Failure(e) => Failure(Cause(e))
      case Success(config) => Success(ResolvePatterns(config, templatePath, templateFolder))
  }

  /** The three results of GenerateFile: bytes, output format, error. */
  datatype Output = Output(bytes: seq<byte>, format: string, err: Option<Error>)

  /** What the template library does with a resolved config and the variables. */
  datatype Rendering = ParseFailed(parseError: string) | ExecuteFailed(executeError: string) | Rendered(text: seq<byte>)

  /** GoEngine.GenerateFile: the rendered bytes in the config's output format. */
  function EngineGenerate(
    engine: EngineKind,
    config: TemplateConfig,
    variables: map<string, Value>,
    render: (TemplateConfig, map<string, Value>) -> Rendering): (out: Output)
    ensures out.err.None? <==> render(config, variables).Rendered?
    ensures out.err.None? ==> out == Output(render(config, variables).text, config.outputFormat, None)
    ensures render(config, variables).ExecuteFailed? ==> out.format == config.outputFormat && out.bytes == []
    ensures render(config, variables).ParseFailed? ==> out.format == "" && out.bytes == []
    ensures render(config, variables).ParseFailed? ==> out.err == Some(Cause(render(config, variables).parseError))
    ensures render(config, variables).ExecuteFailed? ==> out.err == Some(Cause(render(config, variables).executeError))
  {
    match render(config, variables)
    case ParseFailed(e) => Output([], "", Some(Cause(e)))
    case ExecuteFailed(e) => Output([], config.outputFormat, Some(Cause(e)))
    case Rendered(text) => Output(text, config.outputFormat, None)
  }

  /** A post-processor: bytes in, bytes and possibly an error out. */
  type PostProcess = seq<byte> -> Processed

  /** The fixed registry postProcessors; prettyJSON and uglyJSON never fail. */
  function Registry(pretty: seq<byte> -> seq<byte>, ugly: seq<byte> -> seq<byte>): (reg: map<string, PostProcess>)
    ensures reg.Keys == {"removeTrailingCommas", "removeEmptyLines", "prettyJSON", "uglyJSON"}
    ensures forall name, b :: name in reg ==> reg[name](b).err == None
    ensures forall b ::
      && reg["removeTrailingCommas"](b) == RemoveTrailingCommas(b)
      && reg["removeEmptyLines"](b) == RemoveEmptyLines(b)
      && reg["prettyJSON"](b) == Processed(pretty(b), None)
      && reg["uglyJSON"](b) == Processed(ugly(b), None)
  {
    map[
      "removeTrailingCommas" := (b: seq<byte>) => RemoveTrailingCommas(b),
      "removeEmptyLines" := (b: seq<byte>) => RemoveEmptyLines(b),
      "prettyJSON" := (b: seq<byte>) => Processed(pretty(b), None),
      "uglyJSON" := (b: seq<byte>) => Processed(ugly(b), None)]
  }

  /**
   * The post-processing loop: each named processor consumes the previous one's
   * output; an unknown name or a failing processor stops the run.
   */
  function RunPostProcessors(names: seq<string>, registry: map<string, PostProcess>, bytes: seq<byte>, format: string): (out: Output)
    ensures out.err.None? ==> out.format == format
    ensures out.err.None? ==> forall i :: 0 <= i < |names| ==> names[i] in registry
    decreases |names|
  {
    if names == [] then Output(bytes, format, None)
    else if names[0] !in registry then Output([], "", Some(WithMessage(ErrPostProcessorNotFound, names[0])))
    else
      var p := registry[names[0]](bytes);
      if p.err.Some? then Output(p.bytes, format, p.err)
      else
        assert forall i :: 1 <= i < |names| ==> names[i] == names[1..][i - 1];
        RunPostProcessors(names[1..], registry, p.bytes, format)
  }

  /**
   * GenerateFile as a function: stage by stage, the first failing stage decides
   * the result. A successful generation passed every stage and returns the
   * output format declared in the folder's config, unchanged.
   */
  function Generate(
    templatePath: string,
    templateFolder: string,
    variables: map<string, Value>,
    fs: string -> FileRead,
    decode: seq<byte> -> Result<TemplateConfig, string>,
    render: (TemplateConfig, map<string, Value>) -> Rendering,
    registry: map<string, PostProcess>): (out: Output)
    ensures out.err.None? ==>
      var parsed := ParseConfigFile(templatePath, templateFolder, fs, decode);
      && parsed.Success?
      && NewEngine(parsed.value.templateEngine).Success?
      && render(parsed.value, variables).Rendered?
      && out.format == parsed.value.outputFormat
  {
    match ParseConfigFile(templatePath, templateFolder, fs, decode)
    case Failure(e) => Output([], "", Some(e))
    case Success(config) =>
      match NewEngine(config.templateEngine)
      case Failure(e) => Output([], "", Some(e))
      case Success(engine) =>
        var out := EngineGenerate(engine, config, variables, render);
        if out.err.Some? then out
        else RunPostProcessors(config.postProcessors, registry, out.bytes, out.format)
  }

  /** GenerateFile, with the post-processors of the fixed registry. */
  method GenerateFile(
    templatePath: string,
    templateFolder: string,
    variables: map<string, Value>,
    fs: string -> FileRead,
    decode: seq<byte> -> Result<TemplateConfig, string>,
    render: (TemplateConfig, map<string, Value>) -> Rendering,
    pretty: seq<byte> -> seq<byte>,
    ugly: seq<byte> -> seq<byte>)
    returns (result: seq<byte>, format: string, err: Option<Error>)
    ensures Output(result, format, err) == Generate(templatePath, templateFolder, variables, fs, decode, render, Registry(pretty, ugly))
  {
    var parsed := ParseConfigFile(templatePath, templateFolder, fs, decode);
    if parsed.Failure? {
      return [], "", Some(parsed.error);
    }
    var config := parsed.value;
    var engine := NewEngine(config.templateEngine);
    if engine.Failure? {
      return [], "", Some(engine.error);
    }
    var out := EngineGenerate(engine.value, config, variables, render);
    result, format, err := out.bytes, out.format, out.err;
    if err.Some? {
      return;
    }
    var registry := Registry(pretty, ugly);
    var names := config.postProcessors;
    var i := 0;
    while i < |names|
      invariant 0 <= i <= |names|
      invariant err == None && format == out.format
      invariant RunPostProcessors(names, registry, out.bytes, out.format) == RunPostProcessors(names[i..], registry, result, format)
    {
      assert names[i..][1..] == names[i + 1..];
      var name := names[i];
      if name !in registry {
        return [], "", Some(WithMessage(ErrPostProcessorNotFound, name));
      }
      var processed := registry[name](result);
      result := processed.bytes;
      if processed.err.Some? {
        return result, format, processed.err;
      }
      i := i + 1;
    }
  }

  /** Processors run in list order: running `a + b` is running `a`, then `b` on its output, unless `a` stops. */
  lemma {:induction false} RunInOrder(a: seq<string>, b: seq<string>, registry: map<string, PostProcess>, bytes: seq<byte>, format: string)
    ensures var first := RunPostProcessors(a, registry, bytes, format);
      RunPostProcessors(a + b, registry, bytes, format)
        == if first.err.Some? then first else RunPostProcessors(b, registry, first.bytes, format)
    decreases |a|
  {
    if a == [] {
      assert a + b == b;
    } else {
      assert (a + b)[0] == a[0];
      assert (a + b)[1..] == a[1..] + b;
      if a[0] in registry {
        var p := registry[a[0]](bytes);
        if p.err.None? {
          RunInOrder(a[1..], b, registry, p.bytes, format);
        }
      }
    }
  }

  /** With no post-processors the engine's bytes and format come back unchanged. */
  lemma NoPostProcessors(registry: map<string, PostProcess>, bytes: seq<byte>, format: string)
    ensures RunPostProcessors([], registry, bytes, format) == Output(bytes, format, None)
  {
  }

  /** A processor that fails stops the run with its own output, the format and its error. */
  lemma FailingProcessorStops(names: seq<string>, registry: map<string, PostProcess>, bytes: seq<byte>, format: string)
    requires names != [] && names[0] in registry && registry[names[0]](bytes).err.Some?
    ensures RunPostProcessors(names, registry, bytes, format)
      == Output(registry[names[0]](bytes).bytes, format, registry[names[0]](bytes).err)
  {
  }

  /**
   * Over the fixed registry a run fails only on an unknown name: then with the
   * post-processor-not-found error naming the first unknown entry, no bytes and
   * no format.
   */
  lemma {:induction false} RegistryRun(names: seq<string>, pretty: seq<byte> -> seq<byte>, ugly: seq<byte> -> seq<byte>, bytes: seq<byte>, format: string)
    ensures var reg := Registry(pretty, ugly);
      var out := RunPostProcessors(names, reg, bytes, format);
      && ((forall i :: 0 <= i < |names| ==> names[i] in reg) ==> out.err.None? && out.format == format)
      && (forall i :: 0 <= i < |names| && names[i] !in reg && (forall j :: 0 <= j < i ==> names[j] in reg) ==>
            out == Output([], "", Some(WithMessage(ErrPostProcessorNotFound, names[i]))))
    decreases |names|
  {
    var reg := Registry(pretty, ugly);
    if names != [] && names[0] in reg {
      var p := reg[names[0]](bytes);
      assert p.err == None;
      RegistryRun(names[1..], pretty, ugly, p.bytes, format);
      var out := RunPostProcessors(names, reg, bytes, format);
      forall i | 0 <= i < |names| && names[i] !in reg && (forall j :: 0 <= j < i ==> names[j] in reg)
        ensures out == Output([], "", Some(WithMessage(ErrPostProcessorNotFound, names[i])))
      {
        assert names[1..][i - 1] == names[i];
        assert forall j :: 0 <= j < i - 1 ==> names[1..][j] == names[j + 1];
      }
    }
  }

  /**
   * Errors take precedence stage by stage: a missing or unreadable descriptor,
   * then an unknown engine, then a failed rendering; a failing stage ends the
   * run before any later stage is consulted.
   */
  lemma StagePrecedence(
    templatePath: string,
    templateFolder: string,
    variables: map<string, Value>,
    fs: string -> FileRead,
    decode: seq<byte> -> Result<TemplateConfig, string>,
    render: (TemplateConfig, map<string, Value>) -> Rendering,
    registry: map<string, PostProcess>)
    ensures var parsed := ParseConfigFile(templatePath, templateFolder, fs, decode);
      var out := Generate(templatePath, templateFolder, variables, fs, decode, render, registry);
      && (parsed.Failure? ==> out == Output([], "", Some(parsed.error)))
      && (parsed.Success? && NewEngine(parsed.value.templateEngine).Failure? ==>
            out == Output([], "", Some(WithMessage(ErrEngineNotFound, parsed.value.templateEngine))))
      && (parsed.Success? && NewEngine(parsed.value.templateEngine).Success? && !render(parsed.value, variables).Rendered? ==>
            out == EngineGenerate(GoEngine, parsed.value, variables, render))
      && (parsed.Success? && NewEngine(parsed.value.templateEngine).Success? && render(parsed.value, variables).Rendered? ==>
            out == RunPostProcessors(parsed.value.postProcessors, registry, render(parsed.value, variables).text, parsed.value.outputFormat))
  {
  }
}
