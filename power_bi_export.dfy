/**
 * `SendReportingEmailUsingPowerBIAPIAsync`: build the export body, choose the
 * report, submit the export, poll the job, download the file once the job
 * has succeeded and mail it to every recipient. Every failure after the body
 * is built is caught and logged, so the export never throws: what differs is
 * how far it gets.
 *
 * The services are inputs: the export submission's reply, the status
 * replies in order, the download's reply and the outcome of each Graph send.
 */
module PowerBIExport {
  import opened Common
  import opened Config
  import opened ReportRequest
  import opened ExportJob
  import opened Mail

  /** The export submission. `Rejected` is a non-success status code;
      `Faulted` is anything that throws on the way (the token request, the
      POST, or parsing the accepted reply). */
  datatype SubmitReply = Accepted | Rejected | Faulted

  /** The download. `FetchFailed` is a transport error or a non-success
      status code. */
  datatype DownloadReply = Fetched(bytes: seq<byte>) | FetchFailed

  datatype Backend = Backend(submit: SubmitReply, polls: seq<PollReply>, download: DownloadReply, sends: seq<bool>)

  /** How far an export got. */
  datatype ExportEnd =
    | SubmissionRejected
    | SubmissionFaulted
    | PollingNotTerminated
    | JobNotSucceeded(status: Option<string>)
    | DownloadFailed(url: string)
    | RecipientsMissing
    | Dispatched

  /** What an export did: the body and report it submitted, how many status
      requests it made, the URL it downloaded from (`None` if it did not try),
      the mails it posted and whether each got through, and how it ended. */
  datatype ExportTrace = ExportTrace(
    body: PowerBIReportRequest,
    target: ReportTarget,
    statusRequests: nat,
    downloadUrl: Option<string>,
    sent: seq<SendMailRequest>,
    delivered: seq<bool>,
    end: ExportEnd)

  /** The export, as a specification. */
  function ExportRun(env: Env, req: ReportingRequest, backend: Backend): (t: ExportTrace)
    // A submission that fails stops everything after it.
    ensures backend.submit != Accepted ==>
              && t.statusRequests == 0 && t.downloadUrl == None && t.sent == [] && t.delivered == []
              && t.end == (if backend.submit == Rejected then SubmissionRejected else SubmissionFaulted)
    // Once accepted, the poll makes as many status requests as the loop does.
    ensures backend.submit == Accepted ==> t.statusRequests == Poll(backend.polls).statusRequests
    // A download is tried exactly when the job ends with "Succeeded".
    ensures t.downloadUrl.Some? <==>
              backend.submit == Accepted && Poll(backend.polls).Finished? && Poll(backend.polls).status == Some(Succeeded)
    // Mails go out only after a download that got the file.
    ensures t.sent != [] ==>
              && t.end == Dispatched && backend.download.Fetched?
              && t.downloadUrl.Some? && t.downloadUrl.value != ""
    // A dispatched export attempts one mail per recipient.
    ensures t.end == Dispatched <==>
              t.downloadUrl.Some? && t.downloadUrl.value != "" && backend.download.Fetched? && req.emailIds.Some?
    ensures t.end == Dispatched ==> |t.sent| == |t.delivered| == |req.emailIds.value|
    ensures t.end != Dispatched ==> t.sent == [] && t.delivered == []
    // How an accepted export that sends nothing ends.
    ensures backend.submit == Accepted && Poll(backend.polls).NotTerminated? ==> t.end == PollingNotTerminated
    ensures backend.submit == Accepted && Poll(backend.polls).Finished? && Poll(backend.polls).status != Some(Succeeded) ==>
              t.end == JobNotSucceeded(Poll(backend.polls).status)
    ensures t.downloadUrl.Some? && (t.downloadUrl.value == "" || backend.download.FetchFailed?) ==>
              t.end == DownloadFailed(t.downloadUrl.value)
    ensures t.downloadUrl.Some? && t.downloadUrl.value != "" && backend.download.Fetched? && req.emailIds.None? ==>
              t.end == RecipientsMissing
    // The download uses the location of the reply that ended the poll, ""
    // when that reply has none.
    ensures t.downloadUrl.Some? ==> t.downloadUrl.value == Poll(backend.polls).resourceLocation.GetOr("")
    ensures t.body == ExportRequestBody(req.reportType, req)
    ensures t.target == SelectReport(env, req.reportType)
  {
    var body := ExportRequestBody(req.reportType, req);
    var target := SelectReport(env, req.reportType);
    match backend.submit
    case Rejected => ExportTrace(body, target, 0, None, [], [], SubmissionRejected)
    case Faulted => ExportTrace(body, target, 0, None, [], [], SubmissionFaulted)
    case Accepted =>
      match Poll(backend.polls)
      case NotTerminated(n) => ExportTrace(body, target, n, None, [], [], PollingNotTerminated)
      case Finished(status, location, n) =>
        if status != Some(Succeeded) then ExportTrace(body, target, n, None, [], [], JobNotSucceeded(status))
        else
          var url := location.GetOr("");
          if url == "" || backend.download.FetchFailed? then
            ExportTrace(body, target, n, Some(url), [], [], DownloadFailed(url))
          else if req.emailIds.None? then
            ExportTrace(body, target, n, Some(url), [], [], RecipientsMissing)
          else
            var ids := req.emailIds.value;
            ExportTrace(body, target, n, Some(url),
                        FanOut(env, target.fileName, ids, backend.download.bytes),
                        Deliveries(|ids|, backend.sends), Dispatched)
  }

  /** The export as the function runs it, step by step. A download from an
      empty URL throws before any request is made, and a null recipient list
      throws when the fan-out starts; both are caught. */
  method ExportReport(env: Env, req: ReportingRequest, backend: Backend) returns (t: ExportTrace)
    ensures t == ExportRun(env, req, backend)
  {
    var reportType := req.reportType;
    var requestContent := BuildReportingRequest(reportType, req);
    var target := SelectReport(env, reportType);
    var retryCount: nat := 0;
    var downloadUrl: Option<string> := None;
    var sent: seq<SendMailRequest> := [];
    var delivered: seq<bool> := [];
    var end: ExportEnd;
    if backend.submit == Accepted {
      var outcome := PollExportJob(backend.polls);
      retryCount := outcome.statusRequests;
      if outcome.NotTerminated? {
        end := PollingNotTerminated;
      } else if outcome.status == Some(Succeeded) {
        var url := outcome.resourceLocation.GetOr("");
        downloadUrl := Some(url);
        if url == "" || backend.download.FetchFailed? {
          end := DownloadFailed(url);
        } else if req.emailIds.None? {
          end := RecipientsMissing;
        } else {
          sent, delivered := ProcessEmailRequest(env, target.fileName, req.emailIds.value, backend.download.bytes, backend.sends);
          end := Dispatched;
        }
      } else {
        end := JobNotSucceeded(outcome.status);
      }
    } else {
      end := if backend.submit == Rejected then SubmissionRejected else SubmissionFaulted;
    }
    t := ExportTrace(requestContent, target, retryCount, downloadUrl, sent, delivered, end);
  }

  // ---------------------------------------------------------------------------
  // Properties of whole exports

  /** Recipient i of a dispatched export gets mail i, a report mail with the
      downloaded file under the report's file name, posted as the
      FromEmailAddress user, whatever the other sends did. */
  lemma DispatchedMailsGoToEachRecipient(env: Env, req: ReportingRequest, backend: Backend, i: int)
    requires ExportRun(env, req, backend).end == Dispatched
    requires 0 <= i < |req.emailIds.value|
    ensures var t := ExportRun(env, req, backend);
            && IsReportMail(t.sent[i], SelectReport(env, req.reportType).fileName, backend.download.bytes)
            && Recipient(t.sent[i]) == req.emailIds.value[i]
            && t.sent[i].sender == GetOrEmpty(env, FromEmailAddressKey)
            && t.sent[i] == ComposeMail(env, SelectReport(env, req.reportType).fileName, req.emailIds.value[i],
                                        backend.download.bytes)
            && t.delivered[i] == (i < |backend.sends| && backend.sends[i])
  {
    var t := ExportRun(env, req, backend);
    var fileName := SelectReport(env, req.reportType).fileName;
    FanOutAt(env, fileName, req.emailIds.value, backend.download.bytes, i);
    ComposeMailIsReportMail(env, fileName, req.emailIds.value[i], backend.download.bytes);
    DeliveriesAt(|req.emailIds.value|, backend.sends, i);
  }

  /** Two "Running" replies and then "Succeeded": three status requests and
      one download, from the reply's resource location. */
  lemma RunningRunningSucceeded(env: Env, req: ReportingRequest, backend: Backend, url: string)
    requires backend.submit == Accepted
    requires backend.polls == [Answered(Some(Running), None), Answered(Some(Running), None),
                               Answered(Some(Succeeded), Some(url))]
    ensures ExportRun(env, req, backend).statusRequests == 3
    ensures ExportRun(env, req, backend).downloadUrl == Some(url)
  {
    FirstEndingDeterminesPoll(backend.polls, 3);
  }

  /** A job that ends "Failed" after one request: no download and no mail. */
  lemma FailedJobSendsNothing(env: Env, req: ReportingRequest, backend: Backend, location: Option<string>)
    requires backend.submit == Accepted
    requires |backend.polls| >= 1 && backend.polls[0] == Answered(Some("Failed"), location)
    ensures ExportRun(env, req, backend).statusRequests == 1
    ensures ExportRun(env, req, backend).downloadUrl == None
    ensures ExportRun(env, req, backend).sent == []
    ensures ExportRun(env, req, backend).end == JobNotSucceeded(Some("Failed"))
  {
    FirstEndingDeterminesPoll(backend.polls, 1);
  }

  /** A status request that fails is retried and counted: k failed requests
      before a "Succeeded" reply make k + 1 requests. */
  lemma TransientFailuresAreRetried(env: Env, req: ReportingRequest, backend: Backend, k: nat, url: string)
    requires backend.submit == Accepted
    requires |backend.polls| > k
    requires forall j :: 0 <= j < k ==> backend.polls[j] == Transient
    requires backend.polls[k] == Answered(Some(Succeeded), Some(url))
    ensures ExportRun(env, req, backend).statusRequests == k + 1
    ensures ExportRun(env, req, backend).downloadUrl == Some(url)
  {
    FirstEndingDeterminesPoll(backend.polls, k + 1);
  }

  /** The invoices example end to end: one account, both dates, a status of
      two words and two recipients give five parameters and two mails, one
      to each recipient, carrying the "Invoice History Report"; when both
      sends succeed, both are delivered. */
  lemma InvoicesExportExample(env: Env, account: string, startDate: string, endDate: string,
                              s1: string, s2: string, a: string, b: string, backend: Backend, bytes: seq<byte>)
    requires ',' !in s1 && ',' !in s2
    requires s1 == [] || (!Text.IsWhiteSpace(s1[0]) && !Text.IsWhiteSpace(s1[|s1| - 1]))
    requires s2 == [] || (!Text.IsWhiteSpace(s2[0]) && !Text.IsWhiteSpace(s2[|s2| - 1]))
    requires backend.submit == Accepted && backend.download == Fetched(bytes)
    requires |backend.polls| >= 1 && backend.polls[0] == Answered(Some(Succeeded), Some("https://files/report"))
    requires |backend.sends| >= 2 && backend.sends[0] && backend.sends[1]
    ensures var req := ReportingRequest(Some(InvoicesType), Some([account]), None, Some(startDate), Some(endDate),
                                        Some(s1 + "," + s2), Some([a, b]));
            var t := ExportRun(env, req, backend);
            && |t.body.parameterValues| == 5
            && t.body.format == "xlsx"
            && t.end == Dispatched
            && |t.sent| == 2
            && t.sent[0].message.toRecipients == [a] && t.sent[1].message.toRecipients == [b]
            && t.sent[0].message.subject == "Invoice History Report"
            && t.sent[1].message.subject == "Invoice History Report"
            && t.delivered == [true, true]
  {
    var req := ReportingRequest(Some(InvoicesType), Some([account]), None, Some(startDate), Some(endDate),
                                Some(s1 + "," + s2), Some([a, b]));
    InvoiceExample(account, startDate, endDate, s1, s2, Some([a, b]));
    FirstEndingDeterminesPoll(backend.polls, 1);
    var fileName := SelectReport(env, req.reportType).fileName;
    FanOutAt(env, fileName, [a, b], bytes, 0);
    FanOutAt(env, fileName, [a, b], bytes, 1);
    DeliveriesAt(2, backend.sends, 0);
    DeliveriesAt(2, backend.sends, 1);
  }
}
