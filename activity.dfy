/**
 * JsonPathActivity: configuration, the fixed port set, and one run of the
 * activity (input check, compile, parse, evaluate, normalise, first value).
 */
module Activity {
  import opened Common
  import opened JsonLibrary
  import opened JavaStrings
  import opened PathUtils
  import opened ConfigurationBean

  /** Text rendering of a null node. */
  const NullValueForString: string := ""

  const InJson: string := "json_text"
  const OutText: string := "nodelist"
  const OutJson: string := "nodelistAsJSON"
  const SingleValueText: string := "firstNode"
  const SingleValueJson: string := "firstNodeAsJSON"

  const EmptyInput: string := "Empty input"
  const CompileErrorPrefix: string :=
    "Incorrect JsonPath Expression -- JsonPath processing library reported the following error: "
  const NoValueProduced: string := "No value produced"
  const InvalidConfiguration: string := "Invalid configuration of JsonPath activity..."

  datatype InputPort = InputPort(name: string, depth: nat, allowsLiteralValues: bool)
  datatype OutputPort = OutputPort(name: string, depth: nat)

  /** The ports every configured activity has. */
  const ActivityInputs: seq<InputPort> := [InputPort(InJson, 0, true)]
  const ActivityOutputs: seq<OutputPort> :=
    [OutputPort(SingleValueText, 0), OutputPort(SingleValueJson, 0), OutputPort(OutText, 1), OutputPort(OutJson, 1)]

  /** A first-node output: a value, or the error document registered when nothing matched. */
  datatype FirstValue = Value(text: string) | NoValue(message: string)

  /** The data registered on one output port. */
  datatype PortData = Single(first: FirstValue) | Many(items: seq<string>)

  /** An exception that escapes the run: neither fail nor receiveResult is called. */
  datatype Fault = NullExpression | ReadFault(error: ReadError)

  /** How a run ends: callback.fail, an escaping exception, or callback.receiveResult. */
  datatype Outcome = Failed(message: string) | Escaped(fault: Fault) | Produced(outputs: map<string, PortData>)

  /** Text rendering of one node: null becomes the empty string, anything else its toString. */
  function NodeText(lib: Library, node: Json): string {
    if node.Null? then NullValueForString else lib.toText(node)
  }

  /** The evaluation result as a list: a list as it is, anything else as a one-element list. */
  function NodeList(result: Json): seq<Json> {
    if result.Array? then result.items else [result]
  }

  /** The first-node projection of a rendered list. */
  function First(items: seq<string>): FirstValue {
    if items == [] then NoValue(NoValueProduced) else Value(items[0])
  }

  /** The four outputs registered for a list of result nodes. */
  function Outputs(lib: Library, nodes: seq<Json>): map<string, PortData> {
    var texts := seq(|nodes|, i requires 0 <= i < |nodes| => NodeText(lib, nodes[i]));
    var jsons := seq(|nodes|, i requires 0 <= i < |nodes| => lib.toJson(nodes[i]));
    map[SingleValueText := Single(First(texts)), SingleValueJson := Single(First(jsons)),
        OutText := Many(texts), OutJson := Many(jsons)]
  }

  /** One run of the activity on `input` with expression `expression` and default provider `p`. */
  ghost function Execute(lib: Library, p: Provider, expression: Option<string>, input: Option<string>): Outcome {
    if input.None? || |input.value| == 0 then Failed(EmptyInput)
    else if expression.None? then Escaped(NullExpression)
    else
      match lib.compile(expression.value)
      case Failure(m) => Failed(CompileErrorPrefix + m)
      case Success(expr) =>
        match lib.parse(input.value)
        case Failure(m) => Failed(m)
        case Success(doc) =>
          match ReadSpec(Some(p), Some(expr), doc, lib.tokenize)
          case Failure(e) => Escaped(ReadFault(e))
          case Success(v) => Produced(Outputs(lib, NodeList(v)))
  }

  /** The run got as far as evaluating the path, so the default provider was created. */
  predicate ReachedRead(outcome: Outcome) {
    outcome.Produced? || (outcome.Escaped? && outcome.fault.ReadFault?)
  }

  /** The loop that renders every result node as text and as JSON text, in order. */
  method RenderNodes(lib: Library, nodes: seq<Json>) returns (texts: seq<string>, jsons: seq<string>)
    ensures |texts| == |nodes| && |jsons| == |nodes|
    ensures forall i :: 0 <= i < |nodes| ==>
      texts[i] == (if nodes[i].Null? then "" else lib.toText(nodes[i])) && jsons[i] == lib.toJson(nodes[i])
  {
    texts, jsons := [], [];
    for i := 0 to |nodes|
      invariant |texts| == i && |jsons| == i
      invariant forall k :: 0 <= k < i ==> texts[k] == NodeText(lib, nodes[k]) && jsons[k] == lib.toJson(nodes[k])
    {
      var o := nodes[i];
      texts := texts + [if o.Null? then NullValueForString else lib.toText(o)];
      jsons := jsons + [lib.toJson(o)];
    }
  }

  class JsonPathActivity {
    var configBean: ConfigBean?
    var inputPorts: seq<InputPort>
    var outputPorts: seq<OutputPort>

    constructor ()
      ensures configBean == null && inputPorts == [] && outputPorts == []
    {
      configBean := null;
      inputPorts := [];
      outputPorts := [];
    }

    /**
     * configure: an invalid bean is refused and nothing changes; a valid one is
     * stored (getConfiguration returns it) and the port set is rebuilt.
     */
    method Configure(bean: ConfigBean, lib: Library) returns (r: Result<(), string>)
      modifies this
      ensures !bean.IsValid(lib) ==>
        r == Failure(InvalidConfiguration) &&
        configBean == old(configBean) && inputPorts == old(inputPorts) && outputPorts == old(outputPorts)
      ensures bean.IsValid(lib) ==>
        r == Success(()) && configBean == bean && inputPorts == ActivityInputs && outputPorts == ActivityOutputs
    {
      if !bean.IsValid(lib) {
        return Failure(InvalidConfiguration);
      }
      configBean := bean;
      ConfigurePorts();
      r := Success(());
    }

    /** configurePorts: drop every port, then add the fixed input and the four outputs. */
    method ConfigurePorts()
      modifies this`inputPorts, this`outputPorts
      ensures inputPorts == ActivityInputs && outputPorts == ActivityOutputs
    {
      inputPorts := [];
      outputPorts := [];
      inputPorts := inputPorts + [InputPort(InJson, 0, true)];
      outputPorts := outputPorts + [OutputPort(SingleValueText, 0)];
      outputPorts := outputPorts + [OutputPort(SingleValueJson, 0)];
      outputPorts := outputPorts + [OutputPort(OutText, 1)];
      outputPorts := outputPorts + [OutputPort(OutJson, 1)];
    }

    /**
     * The body of the run executeAsynch schedules. `input` is the rendered
     * json_text input; `cache` is the static default-provider state and `created`
     * what the provider factory would return.
     */
    method ExecuteAsynch(input: Option<string>, lib: Library, cache: ProviderCache, created: Provider)
      returns (outcome: Outcome)
      requires configBean != null
      modifies cache
      ensures outcome == Execute(lib, DefaultProvider(old(cache.defaultProvider), created),
                                 configBean.jsonPathAsString, input)
      ensures ReachedRead(outcome) ==>
        cache.defaultProvider == Some(DefaultProvider(old(cache.defaultProvider), created))
      ensures !ReachedRead(outcome) ==> cache.defaultProvider == old(cache.defaultProvider)
    {
      if input.None? || |input.value| == 0 {
        return Failed(EmptyInput);
      }
      var jsonInput := input.value;
      var expressionText := configBean.jsonPathAsString;
      if expressionText.None? {
        return Escaped(NullExpression);
      }
      var compiled := lib.compile(expressionText.value);
      if compiled.Failure? {
        return Failed(CompileErrorPrefix + compiled.error);
      }
      var parsed := lib.parse(jsonInput);
      if parsed.Failure? {
        return Failed(parsed.error);
      }
      var resultValue := cache.ReadWithDefault(Some(compiled.value), parsed.value, lib.tokenize, created);
      if resultValue.Failure? {
        return Escaped(ReadFault(resultValue.error));
      }
      var resultValues := if resultValue.value.Array? then resultValue.value.items else [resultValue.value];
      var outNodesText, outNodesJson := RenderNodes(lib, resultValues);
      var textValue := if |outNodesText| == 0 then NoValue(NoValueProduced) else Value(outNodesText[0]);
      var jsonValue := if |outNodesJson| == 0 then NoValue(NoValueProduced) else Value(outNodesJson[0]);
      var outputs: map<string, PortData> := map[];
      outputs := outputs[SingleValueText := Single(textValue)];
      outputs := outputs[SingleValueJson := Single(jsonValue)];
      outputs := outputs[OutText := Many(outNodesText)];
      outputs := outputs[OutJson := Many(outNodesJson)];
      assert outNodesText == seq(|resultValues|, i requires 0 <= i < |resultValues| => NodeText(lib, resultValues[i]));
      assert outNodesJson == seq(|resultValues|, i requires 0 <= i < |resultValues| => lib.toJson(resultValues[i]));
      outcome := Produced(outputs);
    }
  }

  /** The port names are pairwise distinct, so rebuilding the ports never duplicates one. */
  lemma PortNamesDistinct()
    ensures forall i, j :: 0 <= i < j < |ActivityOutputs| ==> ActivityOutputs[i].name != ActivityOutputs[j].name
    ensures forall i :: 0 <= i < |ActivityOutputs| ==> ActivityOutputs[i].name != ActivityInputs[0].name
    ensures |ActivityInputs| == 1
  {
  }

  /** Missing or empty input fails with "Empty input", whatever the configuration. */
  lemma ExecuteRejectsEmptyInput(lib: Library, p: Provider, expression: Option<string>, input: Option<string>)
    requires input.None? || input == Some("")
    ensures Execute(lib, p, expression, input) == Failed(EmptyInput)
  {
  }

  /** An expression the library refuses fails the run with the library's message, before the input is parsed. */
  lemma ExecuteCompileFailure(lib: Library, p: Provider, expression: string, input: string)
    requires input != ""
    requires lib.compile(expression).Failure?
    ensures Execute(lib, p, Some(expression), Some(input)) == Failed(CompileErrorPrefix + lib.compile(expression).error)
  {
  }

  /** Input the JSON parser refuses fails the run with the parser's message. */
  lemma ExecuteParseFailure(lib: Library, p: Provider, expression: string, input: string)
    requires input != ""
    requires lib.compile(expression).Success? && lib.parse(input).Failure?
    ensures Execute(lib, p, Some(expression), Some(input)) == Failed(lib.parse(input).error)
  {
  }

  /** A document that is not a container makes read throw, and the exception escapes the run. */
  lemma ExecuteScalarDocument(lib: Library, p: Provider, expression: string, input: string)
    requires input != ""
    requires lib.compile(expression).Success? && lib.parse(input).Success?
    requires !p.isContainer(lib.parse(input).value)
    ensures Execute(lib, p, Some(expression), Some(input)) == Escaped(ReadFault(NotAContainer))
  {
  }

  /** Results are produced exactly when every stage before them succeeds. */
  lemma ExecuteProducesIff(lib: Library, p: Provider, expression: Option<string>, input: Option<string>)
    ensures Execute(lib, p, expression, input).Produced? <==>
      input.Some? && input.value != "" && expression.Some? &&
      lib.compile(expression.value).Success? && lib.parse(input.value).Success? &&
      ReadSpec(Some(p), Some(lib.compile(expression.value).value), lib.parse(input.value).value, lib.tokenize).Success?
  {
  }

  /**
   * The produced outputs: exactly the four port keys; the text and JSON lists are as
   * long as the result list (the result itself when it is a list, else one node) and
   * render it node by node, null as "" in the text list but serialised in the JSON
   * list; each first node is the head of its list, or "No value produced" when the
   * list is empty.
   */
  lemma ExecuteOutputs(lib: Library, p: Provider, expression: string, input: string, result: Json)
    requires input != "" && lib.compile(expression).Success? && lib.parse(input).Success?
    requires ReadSpec(Some(p), Some(lib.compile(expression).value), lib.parse(input).value, lib.tokenize) == Success(result)
    ensures Execute(lib, p, Some(expression), Some(input)).Produced?
    ensures var out := Execute(lib, p, Some(expression), Some(input)).outputs;
      var n := if result.Array? then |result.items| else 1;
      && out.Keys == {SingleValueText, SingleValueJson, OutText, OutJson}
      && out[OutText].Many? && out[OutJson].Many?
      && |out[OutText].items| == n && |out[OutJson].items| == n
      && (forall i :: 0 <= i < n ==>
            var node := if result.Array? then result.items[i] else result;
            && out[OutText].items[i] == (if node.Null? then "" else lib.toText(node))
            && out[OutJson].items[i] == lib.toJson(node))
      && out[SingleValueText] ==
           Single(if n == 0 then NoValue(NoValueProduced) else Value(out[OutText].items[0]))
      && out[SingleValueJson] ==
           Single(if n == 0 then NoValue(NoValueProduced) else Value(out[OutJson].items[0]))
  {
  }

  /**
   * Validation trims the expression and execution does not: with a library that
   * compiles only "$", the expression " $" validates, yet a run with it fails to
   * compile.
   */
  lemma PaddedExpressionValidatesButFailsAtRun(p: Provider)
    ensures var lib := Library(
              s => if s == "$" then Success(JsonPath(s)) else Failure("invalid path"),
              s => [], s => Success(Object([])), v => "", v => "");
      && ValidateJsonPath(lib, Some(" $")) == JsonPathValid
      && Execute(lib, p, Some(" $"), Some("{}")) == Failed(CompileErrorPrefix + "invalid path")
  {
    assert ScanStart(" $", 0) == 1;
    assert ScanEnd(" $", 1, 2) == 2;
    assert Trim(" $") == " $"[1..2] == "$";
  }
}
