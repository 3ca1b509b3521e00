/**
 * The Service Bus entry point. `Run` hands the message body to
 * `SendReportingEmail` and completes the message only when that returns;
 * anything it throws leaves the message to the Service Bus runtime.
 * `SendReportingEmail` reads the EnableMockAPI flag first. When that is
 * false it waits DelayInSeconds and then reads UsePowerAutomateAPI to choose
 * between Power Automate and the Power BI export.
 */
module Router {
  import opened Common
  import opened Config
  import opened ReportRequest
  import opened PowerBIExport

  /** The service a message is handed to. */
  datatype Path = MockApi | PowerAutomateApi | PowerBIApi

  /** The routing decision. Every conversion it makes runs outside any `try`,
      so a fault here is thrown out of `SendReportingEmail`. */
  function Route(env: Env): (r: Result<Path, Fault>)
    ensures r == Success(MockApi) <==> ToBoolean(Lookup(env, EnableMockApiKey)) == Success(true)
    ensures r == Success(PowerAutomateApi) <==>
              && ToBoolean(Lookup(env, EnableMockApiKey)) == Success(false)
              && PreProcessingDelay(env).Success?
              && ToBoolean(Lookup(env, UsePowerAutomateApiKey)) == Success(true)
    ensures r == Success(PowerBIApi) <==>
              && ToBoolean(Lookup(env, EnableMockApiKey)) == Success(false)
              && PreProcessingDelay(env).Success?
              && ToBoolean(Lookup(env, UsePowerAutomateApiKey)) == Success(false)
    ensures EnableMockApiKey !in env && DelayInSecondsKey !in env && UsePowerAutomateApiKey !in env ==>
              r == Success(PowerBIApi)
  {
    match ToBoolean(Lookup(env, EnableMockApiKey))
    case Failure(e) => Failure(e)
    case Success(mock) =>
      if mock then Success(MockApi)
      else
        match PreProcessingDelay(env)
        case Failure(e) => Failure(e)
        case Success(_) =>
          match ToBoolean(Lookup(env, UsePowerAutomateApiKey))
          case Failure(e) => Failure(e)
          case Success(automate) => Success(if automate then PowerAutomateApi else PowerBIApi)
  }

  lemma RouteKeysDiffer()
    ensures EnableMockApiKey != DelayInSecondsKey && EnableMockApiKey != UsePowerAutomateApiKey
  {
    assert EnableMockApiKey[0] != DelayInSecondsKey[0];
    assert EnableMockApiKey[0] != UsePowerAutomateApiKey[0];
  }

  /** With the mock flag on, the delay and the Power Automate flag are never
      read: whatever they hold, even values that would throw, the message goes
      to the mock API. */
  lemma MockIgnoresOtherSettings(env: Env, delay: string, automate: string)
    requires Route(env) == Success(MockApi)
    ensures Route(env[DelayInSecondsKey := delay][UsePowerAutomateApiKey := automate]) == Success(MockApi)
    ensures Route(env - {DelayInSecondsKey, UsePowerAutomateApiKey}) == Success(MockApi)
  {
    RouteKeysDiffer();
    var updated := env[DelayInSecondsKey := delay][UsePowerAutomateApiKey := automate];
    assert Lookup(updated, EnableMockApiKey) == Lookup(env, EnableMockApiKey);
    var removed := env - {DelayInSecondsKey, UsePowerAutomateApiKey};
    assert Lookup(removed, EnableMockApiKey) == Lookup(env, EnableMockApiKey);
  }

  /** The message body as it deserializes into a reporting request:
      `Undecodable` when `JsonConvert.DeserializeObject` throws, `NullRequest`
      when it gives null (the JSON literal null, or an empty or
      white-space-only body). */
  datatype Body = Undecodable | NullRequest | Decoded(req: ReportingRequest)

  /** The outcomes of the calls the paths make. `mockOk` is whether the mock
      API POST returned a success status; `automateOk` whether the whole
      Power Automate call (parsing the body, the token, the POST) ran to a
      success status. That call first reads the body's `reportType` entry
      as a string, so `automateOk` is false for a `NullRequest` body and for
      any body without a string `reportType` entry. */
  datatype Services = Services(mockOk: bool, automateOk: bool, backend: Backend)

  /** How `SendReportingEmail` returned normally. */
  datatype Handled = MockCalled | AutomateCalled | Exported(trace: ExportTrace)

  /** What it threw. */
  datatype Thrown = ConfigFault(fault: Fault) | RequestUnreadable | MockFailed | AutomateFailed

  /** `SendReportingEmail`. The mock and Power Automate paths catch,
      log and rethrow; the Power BI export catches everything once it has a
      request, but deserializing the body and reading its report type
      happen before that. */
  function SendReportingEmail(env: Env, body: Body, services: Services): (r: Result<Handled, Thrown>)
    // A malformed flag or delay, or a negative delay, is thrown.
    ensures Route(env).Failure? ==> r == Failure(ConfigFault(Route(env).error))
    // Every failure of the export is swallowed: a readable request on the
    // Power BI path returns normally, with the export `ExportRun` describes.
    ensures Route(env) == Success(PowerBIApi) && body.Decoded? ==>
              r == Success(Exported(ExportRun(env, body.req, services.backend)))
    // Only the Power BI path exports anything.
    ensures r.Success? && r.value.Exported? ==> Route(env) == Success(PowerBIApi)
  {
    match Route(env)
    case Failure(e) => Failure(ConfigFault(e))
    case Success(MockApi) =>
      (match body
       case Undecodable => Failure(RequestUnreadable)
       case NullRequest => Failure(MockFailed)
       case Decoded(_) => if services.mockOk then Success(MockCalled) else Failure(MockFailed))
    case Success(PowerAutomateApi) =>
      if services.automateOk then Success(AutomateCalled) else Failure(AutomateFailed)
    case Success(PowerBIApi) =>
      match body
      case Decoded(req) => Success(Exported(ExportRun(env, req, services.backend)))
      case _ => Failure(RequestUnreadable)
  }

  /** `Run`: whether the message is completed. It is completed exactly when
      routing succeeds and the chosen path returns: the mock API needs a
      readable, non-null request and a success reply, Power Automate a
      successful call, and the Power BI export only a readable, non-null
      request. */
  function Run(env: Env, body: Body, services: Services): (completed: bool)
    ensures completed <==>
              || (Route(env) == Success(MockApi) && body.Decoded? && services.mockOk)
              || (Route(env) == Success(PowerAutomateApi) && services.automateOk)
              || (Route(env) == Success(PowerBIApi) && body.Decoded?)
  {
    SendReportingEmail(env, body, services).Success?
  }

  /** With no configuration at all the message goes to the Power BI export,
      and a readable request is completed whatever the export did. */
  lemma DefaultIsPowerBI(env: Env, req: ReportingRequest, services: Services)
    requires EnableMockApiKey !in env && DelayInSecondsKey !in env && UsePowerAutomateApiKey !in env
    ensures Run(env, Decoded(req), services)
    ensures SendReportingEmail(env, Decoded(req), services) == Success(Exported(ExportRun(env, req, services.backend)))
  {
  }
}
