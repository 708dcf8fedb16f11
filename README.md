# JSONPath activity: a Dafny model

This project models the Taverna JsonPath activity. The activity is a workflow step. It evaluates a JSONPath expression against a JSON document given on its `json_text` input port. It returns the matched nodes on four output ports:

- `nodelist` and `nodelistAsJSON`: every match, as text and as JSON text;
- `firstNode` and `firstNodeAsJSON`: the first match, or an error document "No value produced" when nothing matched.

The model covers four parts of the repository:

- **`JSONPathUtils`** (module `PathUtils`). It checks the provider, the path and the root value. Then it walks the path's tokens left to right. Each non-null filter is applied to the running result, together with a monotone array-filter flag. The lazily created default provider lives in a small class.
- **`JsonPathActivityConfigurationBean`** (module `ConfigurationBean`). This is the tri-state validator: EMPTY = 0, VALID = 1, INVALID = -1. It works on the trimmed expression. The module also holds the bean class with its two fields, its setters and its default instance.
- **`JsonPathActivity`** (module `Activity`). `configure` refuses an invalid bean, stores a valid one and rebuilds the fixed port set. One run of the activity goes through these stages:
  1. check the input;
  2. compile the stored (untrimmed) expression;
  3. parse the document;
  4. evaluate the path;
  5. wrap a non-list result as a one-element list;
  6. render each node as text and as JSON;
  7. project the first node of each list.
- **`JsonPathActivityHealthChecker`** (module `HealthChecker`). It builds one primary sub-report from the validity of the bean and the validator's verdict. It adds a warning when the example document is missing or blank. The overall status is the worst sub-report status.

The external libraries (the jayway JSONPath library and the minidev JSON parser and serialiser) appear only through their interfaces (module `JsonLibrary`). Compiling, tokenizing, filter application, the provider's container test, parsing, `toString` and `toJSONString` are function values, and `isArrayFilter` is a boolean field of each filter. The model assumes nothing about how the libraries compute them beyond what "## Left out" lists. `java_strings.dfy` models Java's `String.trim`, which strips every character at or below U+0020 from both ends.

Java `null` becomes `None` of `Option`. An exception becomes `Failure` of `Result`. A run of the activity ends in one of three ways, each a value of `Outcome`:

- `Failed(message)`: the run called `callback.fail`;
- `Escaped(fault)`: an exception escaped the run, so neither callback was called;
- `Produced(outputs)`: the run called `callback.receiveResult` with the four outputs.

Two behaviours of the code are worth noting:

- **A scalar document.** `read` throws an `IllegalArgumentException` when the root is not a container. `executeAsynch` does not catch it, so the run ends without calling `fail` or `receiveResult`. The model gives `Escaped(ReadFault(NotAContainer))`.
- **The array-filter flag.** The flag never leaves `read`. Normalisation picks the result's shape by testing whether the result is a list.

## Model

| member | source | states |
|---|---|---|
| `JavaStrings.Trim` | src/main/java/net/sf/taverna/t2/activities/jsonpath/JsonPathActivityConfigurationBean.java:50-55 | trim yields the infix of the string left between blank margins (characters at or below U+0020); it is empty exactly when the string is blank, and otherwise it starts and ends with a non-blank character |
| `JavaStrings.TrimIdempotent` | src/main/java/net/sf/taverna/t2/activities/jsonpath/JsonPathActivityConfigurationBean.java:50-55 | trimming a trimmed string changes nothing |
| `PathUtils.Read` | src/main/java/net/sf/taverna/t2/activities/jsonpath/utils/JSONPathUtils.java:73-111 | the loop returns exactly `ReadSpec`: null provider, then null path, then non-container root are rejected in that order; otherwise the result is the left-to-right composition of the non-null filters, where each filter receives the OR of `isArrayFilter` over the filters applied before it, and the first filter that throws ends the read |
| `PathUtils.ChainFailurePersists` | src/main/java/net/sf/taverna/t2/activities/jsonpath/utils/JSONPathUtils.java:99-100 | once a filter has thrown, no later filter changes the outcome |
| `PathUtils.ReadRejectsNullProvider` | src/main/java/net/sf/taverna/t2/activities/jsonpath/utils/JSONPathUtils.java:74-75 | a null provider is reported whatever the path and the value |
| `PathUtils.ReadRejectsNullPath` | src/main/java/net/sf/taverna/t2/activities/jsonpath/utils/JSONPathUtils.java:76-77 | with a provider, a null path is reported whatever the value |
| `PathUtils.ReadRejectsNonContainer` | src/main/java/net/sf/taverna/t2/activities/jsonpath/utils/JSONPathUtils.java:80-83 | a root that is not a container is rejected, and the outcome does not depend on the tokens, so no filter is applied |
| `PathUtils.FiltersOfNullTokens` | src/main/java/net/sf/taverna/t2/activities/jsonpath/utils/JSONPathUtils.java:94-98 | tokens that are null or carry a null filter contribute no filter |
| `PathUtils.ReadWithoutFiltersIsIdentity` | src/main/java/net/sf/taverna/t2/activities/jsonpath/utils/JSONPathUtils.java:86-110 | an empty token list, or one of null tokens and null filters only, returns the root value unchanged |
| `PathUtils.ReadSkipsNullTokens` | src/main/java/net/sf/taverna/t2/activities/jsonpath/utils/JSONPathUtils.java:95-98 | inserting a null token or a token with a null filter anywhere in the list does not change the result |
| `PathUtils.ArrayFilterFlagMonotone` | src/main/java/net/sf/taverna/t2/activities/jsonpath/utils/JSONPathUtils.java:88-102 | the array-filter flag handed to successive filters never goes from true back to false |
| `PathUtils.ProviderCache.constructor` | src/main/java/net/sf/taverna/t2/activities/jsonpath/utils/JSONPathUtils.java:31 | the default provider starts out absent, so the first createProvider stores the factory's provider |
| `PathUtils.ProviderCache.CreateProvider` | src/main/java/net/sf/taverna/t2/activities/jsonpath/utils/JSONPathUtils.java:38-44 | the factory's provider is stored only when none is cached; otherwise the cached one is returned, and afterwards the cache holds the returned provider |
| `PathUtils.ProviderCache.ReadWithDefault` | src/main/java/net/sf/taverna/t2/activities/jsonpath/utils/JSONPathUtils.java:58-60 | the two-argument read equals the three-argument read with the provider createProvider hands out |
| `ConfigurationBean.ValidateJsonPath` | src/main/java/net/sf/taverna/t2/activities/jsonpath/JsonPathActivityConfigurationBean.java:47-63 | the verdict is one of 1, 0, -1; EMPTY exactly for a null or blank expression; VALID exactly when the expression is non-blank and its trimmed form compiles; INVALID otherwise |
| `ConfigurationBean.ValidateIgnoresSurroundingWhitespace` | src/main/java/net/sf/taverna/t2/activities/jsonpath/JsonPathActivityConfigurationBean.java:50-55 | an expression and its trimmed form get the same verdict |
| `ConfigurationBean.DefaultPathVerdict` | src/main/java/net/sf/taverna/t2/activities/jsonpath/JsonPathActivityConfigurationBean.java:29-36 | the default path "$" is VALID when the library compiles "$" and INVALID otherwise |
| `ConfigurationBean.ValidUnpaddedExpressionCompiles` | src/main/java/net/sf/taverna/t2/activities/jsonpath/JsonPathActivity.java:122-124 | a VALID expression without surrounding whitespace compiles as stored, which is what execution compiles |
| `ConfigurationBean.ConfigBean.constructor` | src/main/java/net/sf/taverna/t2/activities/jsonpath/JsonPathActivityConfigurationBean.java:20-21 | a new bean has neither a document nor a path |
| `ConfigurationBean.ConfigBean.GetDefaultInstance` | src/main/java/net/sf/taverna/t2/activities/jsonpath/JsonPathActivityConfigurationBean.java:29-36 | the default bean is new, has path "$" and no example document |
| `ConfigurationBean.ConfigBean.IsValid` | src/main/java/net/sf/taverna/t2/activities/jsonpath/JsonPathActivityConfigurationBean.java:73-76 | a bean is valid exactly when its path is present, not blank, and its trimmed form compiles |
| `ConfigurationBean.ConfigBean.SetJsonText` | src/main/java/net/sf/taverna/t2/activities/jsonpath/JsonPathActivityConfigurationBean.java:92-94 | the document field holds the new value and the path is unchanged |
| `ConfigurationBean.ConfigBean.SetJsonPathAsString` | src/main/java/net/sf/taverna/t2/activities/jsonpath/JsonPathActivityConfigurationBean.java:110-112 | the path field holds the new value and the document is unchanged |
| `Activity.RenderNodes` | src/main/java/net/sf/taverna/t2/activities/jsonpath/JsonPathActivity.java:153-159 | the text and JSON lists have the length and order of the node list; a null node renders as "" in text and is still serialised in JSON |
| `Activity.JsonPathActivity.constructor` | src/main/java/net/sf/taverna/t2/activities/jsonpath/JsonPathActivity.java:44 | a new activity has no configuration and no ports |
| `Activity.JsonPathActivity.Configure` | src/main/java/net/sf/taverna/t2/activities/jsonpath/JsonPathActivity.java:54-66 | an invalid bean is refused with the configuration error and the stored configuration and ports are unchanged; a valid bean becomes the configuration and the ports are the fixed set |
| `Activity.JsonPathActivity.ConfigurePorts` | src/main/java/net/sf/taverna/t2/activities/jsonpath/JsonPathActivity.java:69-91 | afterwards the ports are exactly input `json_text` at depth 0, outputs `firstNode` and `firstNodeAsJSON` at depth 0 and `nodelist` and `nodelistAsJSON` at depth 1, whatever was there before |
| `Activity.PortNamesDistinct` | src/main/java/net/sf/taverna/t2/activities/jsonpath/JsonPathActivity.java:74-89 | the rebuilt port set has one input and no two ports share a name |
| `Activity.JsonPathActivity.ExecuteAsynch` | src/main/java/net/sf/taverna/t2/activities/jsonpath/JsonPathActivity.java:109-199 | the run ends as `Execute` says, with the default provider createProvider hands out; that provider is cached exactly when the run reached read |
| `Activity.ExecuteRejectsEmptyInput` | src/main/java/net/sf/taverna/t2/activities/jsonpath/JsonPathActivity.java:115-119 | null or empty input fails with "Empty input" and produces nothing |
| `Activity.ExecuteCompileFailure` | src/main/java/net/sf/taverna/t2/activities/jsonpath/JsonPathActivity.java:121-133 | an expression the library refuses fails the run with the fixed prefix and the library's message, so no result is produced |
| `Activity.ExecuteParseFailure` | src/main/java/net/sf/taverna/t2/activities/jsonpath/JsonPathActivity.java:135-141 | a document the parser refuses fails the run with the parser's message, so no result is produced |
| `Activity.ExecuteScalarDocument` | src/main/java/net/sf/taverna/t2/activities/jsonpath/JsonPathActivity.java:142 | a parsed document that is not a container makes read throw, and the exception escapes the run |
| `Activity.ExecuteProducesIff` | src/main/java/net/sf/taverna/t2/activities/jsonpath/JsonPathActivity.java:115-199 | results are produced exactly when the input is non-empty, the expression is present and compiles, the document parses and read succeeds |
| `Activity.ExecuteOutputs` | src/main/java/net/sf/taverna/t2/activities/jsonpath/JsonPathActivity.java:143-194 | the outputs have exactly the four port keys; a list result is used as is and any other result as a one-element list; text and JSON lists render it node by node (null as "" in text); each first node is the head of its list, or "No value produced" for an empty list |
| `Activity.PaddedExpressionValidatesButFailsAtRun` | src/main/java/net/sf/taverna/t2/activities/jsonpath/JsonPathActivity.java:122-124 | validation compiles the trimmed expression and execution the stored one: for a library that compiles only "$", " $" validates but the run fails to compile it |
| `HealthChecker.WorstStatus` | src/main/java/net/sf/taverna/t2/activities/jsonpath/JsonPathActivityHealthChecker.java:64 | the worst status is at least every sub-report's status, taking OK < WARNING < SEVERE, and is one of them (OK for none) |
| `HealthChecker.Visit` | src/main/java/net/sf/taverna/t2/activities/jsonpath/JsonPathActivityHealthChecker.java:23-69 | the primary report is CORRECTLY_CONFIGURED/OK for a valid bean, EMPTY_JSONPATH_EXPRESSION/SEVERE for a missing or blank path, INVALID_JSONPATH_EXPRESSION/SEVERE otherwise (never GENERAL_CONFIG_PROBLEM); a missing or blank example document adds exactly one NO_EXAMPLE_DOCUMENT/WARNING; there are 1 or 2 sub-reports and the overall status is their worst |
| `HealthChecker.GeneralConfigProblemUnreachable` | src/main/java/net/sf/taverna/t2/activities/jsonpath/JsonPathActivityHealthChecker.java:47-51 | a bean that is not valid always has an EMPTY or INVALID verdict, so the GENERAL_CONFIG_PROBLEM branch is dead |

## Left out

- JSONPath grammar, tokenizing and filter semantics belong to the jayway library. `JsonPath.compile`, the `PathTokenizer` token list, each filter's behaviour and `isArrayFilter` are function values of `JsonLibrary.Library` and `JsonLibrary.PathFilter`.
- The context-filter list that `read` hands to each filter is created empty per call and changed only by the library. A filter's function does not receive it.
- JSON parsing, `JSONValue.toJSONString` and `Object.toString` of non-null values are function values. Parsing yields a value or the parser's message.
- The default provider's factory (`JsonProviderFactory.createProvider`) is a parameter. It stands for the provider the factory would return.
- Host plumbing is not modelled: the asynchronous scheduling by `callback.requestRun`, rendering the input reference, registering outputs and error documents. The run's result is an `Outcome` value, and a registered error document is `NoValue("No value produced")`.
- Activity.JsonPathActivity.ExecuteAsynch: requires a configured activity. The host runs only activities whose `configure` succeeded; the Java code would throw a NullPointerException for a non-empty input otherwise.
- HealthChecker.Visit: requires a configured activity, for the same reason.
- What the library does when `JsonPath.compile` gets a null expression is not visible here. The model treats it as an exception escaping the run (`Escaped(NullExpression)`). A null path can only appear when a setter clears it after `configure`.
- Exceptions other than `InvalidPathException` from compiling, and other than `ParseException` from parsing, are not modelled.
- The getters `getConfiguration`, `getJsonText` and `getJsonPathAsString` are read as the fields themselves.
- `canVisit` (an `instanceof` test) and `isTimeConsuming` (constant false) are left out. So are the report's subject and health-check singleton, `Serializable`, and the Swing explainer class.
- The input port's translated element class (`String`) and its reference schemes are not modelled. Ports are kept as sequences in the order they are added; the host keeps them in sets.
