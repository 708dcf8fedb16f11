/**
 * The interface of the external libraries the activity calls: the JSON value
 * model handed over by the JSON parser, the JSONPath provider, path tokens and
 * their filters, and the library entry points used by the activity. Every
 * library operation is a function value here, so the model makes no assumption
 * about how the library computes it.
 */
module JsonLibrary {
  import opened Common

  /** A parsed JSON value: Java null, a Boolean, a Number, a String, a list or a map (insertion order kept). */
  datatype Json =
    | Null
    | Bool(b: bool)
    | Number(literal: string)
    | Str(s: string)
    | Array(items: seq<Json>)
    | Object(members: seq<(string, Json)>)

  /** The JSON provider; the activity only relies on its container test. */
  datatype Provider = Provider(isContainer: Json -> bool)

  /**
   * The filter of one path token: applied to the running value with the provider
   * and the array-filter flag, it yields the next value or throws (Failure carries
   * the exception message). `isArrayFilter` says whether the token can fan out.
   */
  datatype PathFilter = PathFilter(apply: (Provider, Json, bool) -> Result<Json, string>, isArrayFilter: bool)

  /** One token of a tokenized path; its filter may be null. */
  datatype PathToken = PathToken(filter: Option<PathFilter>)

  /** A compiled JSONPath; `path` is what its getPath() returns. */
  datatype JsonPath = JsonPath(path: string)

  /**
   * The library operations the activity calls:
   *  - compile: JsonPath.compile, Failure(message) when it throws InvalidPathException;
   *  - tokenize: the token list of a PathTokenizer built on a path string;
   *  - parse: JSONValue.parseWithException, Failure(message) on a ParseException;
   *  - toText: Object.toString of a non-null value;
   *  - toJson: JSONValue.toJSONString.
   */
  datatype Library = Library(
    compile: string -> Result<JsonPath, string>,
    tokenize: string -> seq<Option<PathToken>>,
    parse: string -> Result<Json, string>,
    toText: Json -> string,
    toJson: Json -> string)
}
