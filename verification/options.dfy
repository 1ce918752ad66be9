/** Start-up options of pkg/options/options.go and their validation. */
module Options {
  import opened Wrappers

  /** The settings the service needs. */
  datatype Options = Options(httpAddress: string, templatePath: string)

  /** The sentinel errors of the package. */
  datatype Sentinel = ErrInvalidConfiguration
  {
    function Text(): string
    {
      "invalid configuration"
    }
  }

  /** An error made by fmt.Errorf with %w: it wraps a sentinel and has its own text. */
  datatype WrappedError = WrappedError(wrapped: Sentinel, text: string)

  const MissingHTTPAddress: string := "missing setting: http-address"
  const MissingTemplatePath: string := "missing setting: template_path"

  /** strings.Join */
  function Join(parts: seq<string>, sep: string): string
  {
    if parts == [] then ""
    else if |parts| == 1 then parts[0]
    else parts[0] + sep + Join(parts[1..], sep)
  }

  /**
   * Validate: no error exactly when both settings are present; otherwise an
   * error wrapping ErrInvalidConfiguration whose text lists the missing
   * settings, address first. The options are a value and stay as they were.
   */
  method Validate(o: Options) returns (err: Option<WrappedError>)
    ensures err.None? <==> |o.httpAddress| > 0 && |o.templatePath| > 0
    ensures err.Some? ==> err.value.wrapped == ErrInvalidConfiguration
    ensures o.httpAddress == "" && o.templatePath == "" ==>
      err == Some(WrappedError(ErrInvalidConfiguration,
        "invalid configuration" + "\ndetail:\n" + "missing setting: http-address" + "\n  " + "missing setting: template_path"))
    ensures o.httpAddress == "" && o.templatePath != "" ==>
      err == Some(WrappedError(ErrInvalidConfiguration, "invalid configuration" + "\ndetail:\n" + "missing setting: http-address"))
    ensures o.httpAddress != "" && o.templatePath == "" ==>
      err == Some(WrappedError(ErrInvalidConfiguration, "invalid configuration" + "\ndetail:\n" + "missing setting: template_path"))
  {
    var msgs: seq<string> := [];
    if |o.httpAddress| < 1 {
      msgs := msgs + [MissingHTTPAddress];
    }
    if |o.templatePath| < 1 {
      msgs := msgs + [MissingTemplatePath];
    }
    if |msgs| != 0 {
      var text := ErrInvalidConfiguration.Text() + "\ndetail:\n" + Join(msgs, "\n  ");
      if |msgs| == 2 {
        assert msgs == [MissingHTTPAddress, MissingTemplatePath];
        assert Join(msgs[1..], "\n  ") == MissingTemplatePath;
        var head := ErrInvalidConfiguration.Text() + "\ndetail:\n";
        assert text == head + (MissingHTTPAddress + "\n  " + MissingTemplatePath);
        assert text == head + MissingHTTPAddress + "\n  " + MissingTemplatePath;
      }
      return Some(WrappedError(ErrInvalidConfiguration, text));
    }
    return None;
  }
}
