/**
 * JsonPathActivityConfigurationBean: the activity's configuration (the JSONPath
 * expression and an optional example document) and the tri-state validator of
 * expressions.
 */
module ConfigurationBean {
  import opened Common
  import opened JsonLibrary
  import opened JavaStrings

  const JsonPathValid: int := 1
  const JsonPathEmpty: int := 0
  const JsonPathInvalid: int := -1

  /** The path the default configuration carries. */
  const DefaultJsonPath: string := "$"

  /**
   * validateJsonPath: a missing or blank expression is EMPTY; otherwise the
   * trimmed expression is compiled, VALID when that succeeds and INVALID when
   * compiling reports an invalid path.
   */
  function ValidateJsonPath(lib: Library, expression: Option<string>): (verdict: int)
    ensures verdict == JsonPathValid || verdict == JsonPathEmpty || verdict == JsonPathInvalid
    ensures verdict == JsonPathEmpty <==> expression.None? || Blank(expression.value)
    ensures verdict == JsonPathValid <==>
      expression.Some? && !Blank(expression.value) && lib.compile(Trim(expression.value)).Success?
  {
    if expression.None? || |Trim(expression.value)| == 0 then JsonPathEmpty
    else
      match lib.compile(Trim(expression.value))
      case Success(_) => JsonPathValid
      case Failure(_) => JsonPathInvalid
  }

  /** Whitespace around an expression never changes its verdict. */
  lemma ValidateIgnoresSurroundingWhitespace(lib: Library, expression: string)
    ensures ValidateJsonPath(lib, Some(expression)) == ValidateJsonPath(lib, Some(Trim(expression)))
  {
    TrimIdempotent(expression);
  }

  /** The default path validates exactly when the library compiles "$". */
  lemma DefaultPathVerdict(lib: Library)
    ensures ValidateJsonPath(lib, Some(DefaultJsonPath)) ==
      if lib.compile("$").Success? then JsonPathValid else JsonPathInvalid
  {
    assert ScanStart(DefaultJsonPath, 0) == 0;
    assert ScanEnd(DefaultJsonPath, 0, 1) == 1;
    assert Trim(DefaultJsonPath) == "$"[0..1] == "$";
  }

  /** The configuration bean; its two fields are read directly where the source calls a getter. */
  class ConfigBean {
    var jsonText: Option<string>
    var jsonPathAsString: Option<string>

    constructor ()
      ensures jsonText == None && jsonPathAsString == None
    {
      jsonText := None;
      jsonPathAsString := None;
    }

    /** getDefaultInstance: a bean with path "$" and no example document. */
    static method GetDefaultInstance() returns (bean: ConfigBean)
      ensures fresh(bean)
      ensures bean.jsonPathAsString == Some(DefaultJsonPath) && bean.jsonText == None
    {
      bean := new ConfigBean();
      bean.SetJsonPathAsString(Some(DefaultJsonPath));
    }

    /** isValid: the path is present, not blank, and its trimmed form compiles. */
    predicate IsValid(lib: Library)
      reads this
      ensures IsValid(lib) <==>
        jsonPathAsString.Some? && !Blank(jsonPathAsString.value) && lib.compile(Trim(jsonPathAsString.value)).Success?
    {
      jsonPathAsString.Some? && ValidateJsonPath(lib, jsonPathAsString) == JsonPathValid
    }

    method SetJsonText(text: Option<string>)
      modifies this
      ensures jsonText == text && jsonPathAsString == old(jsonPathAsString)
    {
      jsonText := text;
    }

    method SetJsonPathAsString(path: Option<string>)
      modifies this
      ensures jsonPathAsString == path && jsonText == old(jsonText)
    {
      jsonPathAsString := path;
    }
  }

  /**
   * A valid expression without surrounding whitespace compiles as it stands;
   * validation compiles the trimmed text, execution the text as stored.
   */
  lemma ValidUnpaddedExpressionCompiles(lib: Library, expression: string)
    requires ValidateJsonPath(lib, Some(expression)) == JsonPathValid
    requires Trim(expression) == expression
    ensures lib.compile(expression).Success?
  {
  }
}
