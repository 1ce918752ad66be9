/**
 * Types and sentinel errors of pkg/configen/model.go, and the values a
 * generation request carries as variables.
 */
module ConfigenModel {

  /** One byte of a generated document. */
  newtype byte = b: int | 0 <= b < 256

  /** The three sentinel errors callers test for with errors.Is. */
  datatype Sentinel = ErrEngineNotFound | ErrTemplateConfigNotFound | ErrPostProcessorNotFound
  {
    function Text(): string
    {
      match this
      case ErrEngineNotFound => "engine not found"
      case ErrTemplateConfigNotFound => "template config not found"
      case ErrPostProcessorNotFound => "post processor not found"
    }
  }

  /**
   * An error of the generation pipeline: a sentinel annotated by
   * errors.WithMessage, or an error from a collaborator (file system, YAML
   * decoder, template engine, post-processor), known by its text.
   */
  datatype Error = WithMessage(sentinel: Sentinel, message: string) | Cause(text: string)
  {
    /** errors.Is against a sentinel. */
    predicate Is(s: Sentinel)
    {
      WithMessage? && sentinel == s
    }

    /** The error's text: errors.WithMessage puts the message before the cause. */
    function Text(): string
    {
      match this
      case WithMessage(s, m) => m + ": " + s.Text()
      case Cause(t) => t
    }
  }

  /** The three sentinels are distinct values with distinct texts; errors.Is tells them apart. */
  lemma SentinelsDistinct(s: Sentinel, s': Sentinel, m: string)
    ensures WithMessage(s, m).Is(s') <==> s == s'
    ensures s != s' ==> s.Text() != s'.Text()
    ensures !Cause(m).Is(s)
  {
  }

  /** errors.WithMessage puts its message, ": " and the sentinel's text together, so both can be read off. */
  lemma WithMessageText(s: Sentinel, m: string)
    ensures WithMessage(s, m).Text()[..|m|] == m
    ensures WithMessage(s, m).Text()[|m|..|m| + 2] == ": "
    ensures WithMessage(s, m).Text()[|m| + 2..] == s.Text()
  {
    var t := WithMessage(s, m).Text();
    assert t == m + ": " + s.Text();
  }

  /** Engine: the only named engine. */
  const EngineGolang: string := "golang"

  /** The descriptor config.yaml of a template folder. */
  datatype TemplateConfig = TemplateConfig(
    templateEngine: string,
    mainPattern: string,
    includePattern: string,
    mainTemplate: string,
    postProcessors: seq<string>,
    outputFormat: string)

  /** A JSON value, as decoded into the request's variables (numbers taken as integers). */
  datatype Value =
    | Null
    | Bool(b: bool)
    | Number(n: int)
    | Str(str: string)
    | List(items: seq<Value>)
    | Object(fields: map<string, Value>)
  {
    /** The Go type name reflect.TypeOf reports for the decoded value. */
    function TypeName(): string
    {
      match this
      case Null => "<nil>"
      case Bool(_) => "bool"
      case Number(_) => "float64"
      case Str(_) => "string"
      case List(_) => "[]interface {}"
      case Object(_) => "map[string]interface {}"
    }
  }
}
