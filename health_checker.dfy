/**
 * JsonPathActivityHealthChecker: the report a health check of a configured
 * activity produces, one primary sub-report plus an optional warning, under an
 * overall report carrying the worst status.
 */
module HealthChecker {
  import opened JsonLibrary
  import opened JavaStrings
  import opened ConfigurationBean
  import opened Activity

  /** Report statuses, from best to worst. */
  datatype Status = Ok | Warning | Severe

  function Rank(s: Status): nat {
    match s
    case Ok => 0
    case Warning => 1
    case Severe => 2
  }

  /** The result identifiers of the JsonPath health check. */
  datatype CheckId =
    | NoProblem
    | CorrectlyConfigured
    | EmptyJsonPathExpression
    | InvalidJsonPathExpression
    | GeneralConfigProblem
    | NoExampleDocument

  datatype VisitReport = VisitReport(message: string, resultId: CheckId, status: Status, subReports: seq<VisitReport>)

  const OverallMessage: string := "JsonPath Activity Report"

  /** The message each sub-report carries. */
  function Message(id: CheckId): string {
    match id
    case NoProblem => OverallMessage
    case CorrectlyConfigured => "JsonPath Activity is configured correctly"
    case EmptyJsonPathExpression => "JsonPath Activity - JsonPath expression is missing"
    case InvalidJsonPathExpression => "JsonPath Activity - JsonPath expression is invalid"
    case GeneralConfigProblem => "JsonPath Activity - bad configuration"
    case NoExampleDocument => "JsonPath activity - no example JSON document"
  }

  function SubReport(id: CheckId, status: Status): VisitReport {
    VisitReport(Message(id), id, status, [])
  }

  /** The worst status among `reports`, OK for none. */
  function WorstStatus(reports: seq<VisitReport>): (worst: Status)
    ensures forall i :: 0 <= i < |reports| ==> Rank(reports[i].status) <= Rank(worst)
    ensures worst == Ok || exists i :: 0 <= i < |reports| && reports[i].status == worst
  {
    if reports == [] then Ok
    else
      var rest := WorstStatus(reports[1..]);
      if Rank(reports[0].status) >= Rank(rest) then reports[0].status else rest
  }

  /**
   * visit: the primary report follows isValid and the validator's verdict, a
   * missing or blank example document adds a warning, and the overall status is
   * the worst of the sub-reports.
   */
  method Visit(activity: JsonPathActivity, lib: Library) returns (report: VisitReport)
    requires activity.configBean != null
    ensures var bean := activity.configBean;
      var valid := bean.IsValid(lib);
      var noExample := bean.jsonText.None? || Blank(bean.jsonText.value);
      && report.message == OverallMessage && report.resultId == NoProblem
      && 1 <= |report.subReports| <= 2
      && (valid ==> report.subReports[0] == SubReport(CorrectlyConfigured, Ok))
      && (!valid && (bean.jsonPathAsString.None? || Blank(bean.jsonPathAsString.value)) ==>
            report.subReports[0] == SubReport(EmptyJsonPathExpression, Severe))
      && (!valid && bean.jsonPathAsString.Some? && !Blank(bean.jsonPathAsString.value) ==>
            report.subReports[0] == SubReport(InvalidJsonPathExpression, Severe))
      && (|report.subReports| == 2 <==> noExample)
      && (noExample ==> report.subReports[1] == SubReport(NoExampleDocument, Warning))
      && report.status == (if !valid then Severe else if noExample then Warning else Ok)
  {
    var reports: seq<VisitReport> := [];
    var configBean := activity.configBean;
    if configBean.IsValid(lib) {
      reports := reports + [SubReport(CorrectlyConfigured, Ok)];
    } else {
      var pathStatus := ValidateJsonPath(lib, configBean.jsonPathAsString);
      if pathStatus == JsonPathEmpty {
        reports := reports + [SubReport(EmptyJsonPathExpression, Severe)];
      } else if pathStatus == JsonPathInvalid {
        reports := reports + [SubReport(InvalidJsonPathExpression, Severe)];
      } else {
        reports := reports + [SubReport(GeneralConfigProblem, Severe)];
      }
    }
    ghost var primary := reports[0];
    assert reports == [primary];
    assert primary.status == (if configBean.IsValid(lib) then Ok else Severe);
    if configBean.jsonText.None? || |Trim(configBean.jsonText.value)| == 0 {
      reports := reports + [SubReport(NoExampleDocument, Warning)];
      assert WorstStatus(reports) == WorstStatus([primary, SubReport(NoExampleDocument, Warning)]);
    }
    var worstStatus := WorstStatus(reports);
    report := VisitReport(OverallMessage, NoProblem, worstStatus, reports);
  }

  /** The GENERAL_CONFIG_PROBLEM branch of visit is unreachable: a bean that is not valid has an EMPTY or INVALID path. */
  lemma GeneralConfigProblemUnreachable(lib: Library, bean: ConfigBean)
    requires !bean.IsValid(lib)
    ensures ValidateJsonPath(lib, bean.jsonPathAsString) == JsonPathEmpty
         || ValidateJsonPath(lib, bean.jsonPathAsString) == JsonPathInvalid
  {
  }
}
