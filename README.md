# Reporting e-mail function: a Dafny model

This project models the core of an Azure Function (`SendReportingEmailFunction`). The function receives a reporting request from a Service Bus queue. It exports a paginated Power BI report for the request and mails the exported spreadsheet to every recipient the request lists.

The model covers the whole path a message takes:

- the routing flags and the pre-processing delay read from the environment;
- the parameter list built for each report type;
- the export's submission, its status poll and the download;
- the per-recipient mail fan-out;
- whether the message is completed on the queue.

Modules:

- `Common`: `Option`, `Result` and `byte`.
- `Text`: the .NET string operations used:
  - `Char.IsWhiteSpace`;
  - `String.Trim` and `String.Split(char)`, with their characterisations (trimming is unique and idempotent and keeps only characters of its input; splitting undoes joining, and joining undoes splitting);
  - ASCII case folding.
- `Config`: the environment as an explicit map, plus the conversions applied to it:
  - `Convert.ToBoolean`;
  - `Convert.ToInt16`;
  - the `Task.Delay` range check.
- `ReportRequest`: the report-type switch and `BuildReportingRequest`:
  - `BuildReportingRequest` is a method with loops, proved equal to the specification function `ExportRequestBody`;
  - lemmas give the layout of each report type's parameter list.
- `ExportJob`: the `while (jobStatus == "Running")` poll loop, as a method proved against the function `Poll`, with lemmas characterising `Poll`.
- `Mail`: the send-mail request built by `SendEmailAsync` and the fan-out loop of `ProcessEmailRequestAsync`.
- `PowerBIExport`: the whole export (`SendReportingEmailUsingPowerBIAPIAsync`), as a method proved equal to the trace function `ExportRun`, with lemmas about particular reply sequences and requests.
- `Router`: `SendReportingEmail`'s routing and `Run`'s acknowledgement.

Inputs replace everything outside the process:
- Environment variables become an `Env` map.
- The deserialized message becomes a `Body`.
- The Power BI replies become a `Backend`: the submission reply, the status replies in order, the download reply and each send's outcome.
- The mock and Power Automate calls become a `Services` value holding one success flag each.

Delays are no-ops. Their only modelled effect is the exception a negative `DelayInSeconds` causes.

Behaviour worth noting:

- **Rethrowing.** Both the mock path and the Power Automate path rethrow, so both leave the message uncompleted (source lines 107-111 and 165-169).
- **Delay.** The pre-processing delay applies only when the mock flag is off (line 63 sits in the `else` branch).
- **Ending the poll.** The poll stops on any status other than "Running", including an absent status field. It does not wait for "Succeeded" or "Failed" (lines 221 and 237).
- **Job outcome.** Every status that is not "Succeeded" is treated like "Failed" (line 249).
- **Empty download location.** The download "fails" because `GetAsync("")` throws before any request is made. It is then caught like any other download failure (lines 251-266).

## Model

| member | source | states |
|---|---|---|
| Text.TrimWhereIsTrimming | SendReportingEmailFunctionUpdated.cs:364 | `status.Trim()` removes a run of white space from each end and nothing else: the result is a slice whose outside is all white space and whose ends are not |
| Text.TrimmingIsUnique | SendReportingEmailFunctionUpdated.cs:364 | any slice meeting that description is the trimmed string, so trimming is fully characterised |
| Text.TrimIdempotent | SendReportingEmailFunctionUpdated.cs:364 | trimming a trimmed status piece changes nothing |
| Text.TrimKeepsOnlySourceCharacters | SendReportingEmailFunctionUpdated.cs:364 | a trimmed piece holds no character its source does not |
| Text.Split | SendReportingEmailFunctionUpdated.cs:356 | `Split(',')` keeps empty pieces: a string with n commas has n + 1 pieces |
| Text.SplitFacts | SendReportingEmailFunctionUpdated.cs:356 | no piece holds a comma, and the pieces joined with commas give back the status string |
| Text.SplitJoin | SendReportingEmailFunctionUpdated.cs:356 | splitting undoes joining pieces that hold no comma |
| Config.GetOrEmpty | SendReportingEmailFunctionUpdated.cs:184 | `GetEnvironmentVariable(key) ?? ""` is the variable's value when set and "" otherwise |
| Config.ToBoolean | SendReportingEmailFunctionUpdated.cs:53 | an unset flag is false; a text parses exactly when, trimmed of white space and NUL, it is "true" or "false" in any letter case, and then reads as that boolean; anything else throws FormatException and nothing else |
| Config.ToBooleanReadsAnyCasing | SendReportingEmailFunctionUpdated.cs:67 | "true"/"false" in any mix of ASCII letter cases, padded with white space, reads as that boolean |
| Config.ToInt16 | SendReportingEmailFunctionUpdated.cs:63 | an unset delay is 0; a parsed value lies in the 16-bit range; the only failures are FormatException and OverflowException; any text that is not white space, an optional sign and one or more digits throws FormatException |
| Config.ToInt16ReadsSignedDigits | SendReportingEmailFunctionUpdated.cs:63 | white space, an optional "+" or "-", one or more digits and white space read as the signed value of the digits, or throw OverflowException when it does not fit in 16 bits |
| Config.ToInt16ReadsInt16Text | SendReportingEmailFunctionUpdated.cs:63 | every 16-bit integer written in decimal reads back as itself |
| Config.DecimalDigits | SendReportingEmailFunctionUpdated.cs:63 | the decimal digits of n are non-empty, all digits, and have value n |
| Config.PreProcessingDelay | SendReportingEmailFunctionUpdated.cs:63-65 | an unset delay waits 0 seconds; the wait succeeds exactly when the value parses and is not negative, and never exceeds 32767 seconds |
| ReportRequest.SelectReport | SendReportingEmailFunctionUpdated.cs:181-197 | a known type gets a non-empty file name and the report id from its own variable; any other type gets an empty id and an empty file name |
| ReportRequest.AppendEach | SendReportingEmailFunctionUpdated.cs:293-304 | the `foreach` over a possibly null list appends one parameter per entry, in order, and nothing for a null or empty list |
| ReportRequest.AppendStatuses | SendReportingEmailFunctionUpdated.cs:354-369 | the `foreach` over `Status.Split(',')` appends one parameter per trimmed piece, in order |
| ReportRequest.AppendHistoryParameters | SendReportingEmailFunctionUpdated.cs:321-370 | an invoices or orders branch appends the accounts, the start date, the end date and the statuses, in that order |
| ReportRequest.BuildReportingRequest | SendReportingEmailFunctionUpdated.cs:288-434 | the built body is the xlsx request with exactly the parameter list `ReportParameters` specifies |
| ReportRequest.UnknownReportTypeHasNoParameters | SendReportingEmailFunctionUpdated.cs:288-434 | an unknown or null report type gives an empty parameter list, still as "xlsx", without failing |
| ReportRequest.ParametersOnlyForKnownReportTypes | SendReportingEmailFunctionUpdated.cs:288-434 | a non-empty parameter list means the report type is known and has a file name |
| ReportRequest.StatusValuesArePieces | SendReportingEmailFunctionUpdated.cs:354-369 | the status gives commas + 1 values, each free of commas and already trimmed; a null status gives none |
| ReportRequest.HistoryParametersLayout | SendReportingEmailFunctionUpdated.cs:321-370 | the invoices/orders layout, element by element: accounts at 0..a, then the start date, then the end date, then one value per status piece |
| ReportRequest.InvoiceParameterCount | SendReportingEmailFunctionUpdated.cs:321-370 | the invoices list has length accounts + [start] + [end] + (commas + 1 when a status is present) |
| ReportRequest.OrderParametersFollowInvoiceLayout | SendReportingEmailFunctionUpdated.cs:372-421 | the orders list has the same length and values as the invoices list, differing only in names |
| ReportRequest.AllocationParametersLayout | SendReportingEmailFunctionUpdated.cs:291-319 | allocations: every account, then every product SKU, in order |
| ReportRequest.IgnoredFields | SendReportingEmailFunctionUpdated.cs:288-434 | the history reports ignore products; allocations ignores the dates and the status |
| ReportRequest.NullListIsEmptyList | SendReportingEmailFunctionUpdated.cs:293 | a null accounts or products list gives the same parameters as an empty one |
| ReportRequest.TwoStatuses | SendReportingEmailFunctionUpdated.cs:356-368 | a status "w1,w2" of two trimmed words gives exactly the values w1 and w2 |
| ReportRequest.InvoiceExample | SendReportingEmailFunctionUpdated.cs:321-370 | an invoices request with one account, both dates and a status "w1,w2" of two trimmed, comma-free words gives exactly these five named parameters, in order, the two words as two status values |
| ExportJob.PollExportJob | SendReportingEmailFunctionUpdated.cs:220-246 | the poll loop, including transient failures that leave the status unchanged, computes `Poll` |
| ExportJob.PollEndsAtFirstEnding | SendReportingEmailFunctionUpdated.cs:220-246 | the loop makes exactly as many requests as it takes to reach the first reply whose status is not "Running", and ends with that reply's status and location; it keeps polling only when no reply ends it |
| ExportJob.FirstEndingDeterminesPoll | SendReportingEmailFunctionUpdated.cs:220-246 | conversely, the first such reply fixes the outcome and the request count |
| ExportJob.LaterRepliesUnread | SendReportingEmailFunctionUpdated.cs:221 | no status request is made after a terminal status has been read |
| Mail.ComposeMailIsReportMail | SendReportingEmailFunctionUpdated.cs:445-489 | each mail has one recipient, exactly the given address; its subject is the file name; its one attachment is the file as `<file name>.xlsx` with the spreadsheet MIME type; it is not saved to sent items; it is posted as FromEmailAddress ("" when unset) |
| Mail.MailsDifferOnlyInRecipient | SendReportingEmailFunctionUpdated.cs:457-489 | two mails of one fan-out are equal except for their recipient |
| Mail.ReportMailIsComposed | SendReportingEmailFunctionUpdated.cs:457-489 | conversely, any report mail from the configured sender is the composed mail to its recipient |
| Mail.ProcessEmailRequest | SendReportingEmailFunctionUpdated.cs:436-443 | the fan-out posts the composed mail for every recipient, in order, and records each send's own outcome |
| Mail.FanOutFailuresAreIsolated | SendReportingEmailFunctionUpdated.cs:436-506 | N recipients give N attempts whatever the sends did; attempt i is the report mail to recipient i, and its outcome depends only on its own send |
| PowerBIExport.ExportRun | SendReportingEmailFunctionUpdated.cs:172-286 | the export trace: a failed submission makes no status requests, no download and no mail; otherwise the request count is the poll's; a download is tried exactly when the job ends "Succeeded"; mail goes out exactly when the download got the file from a non-empty location and recipients exist, one per recipient; the download uses the resource location of the reply that ended the poll ("" when absent, which fails); the report submitted is the one the switch selects; every way the export can stop short (poll not ended, job not succeeded, download failed, no recipients) is named and sends no mail |
| PowerBIExport.ExportReport | SendReportingEmailFunctionUpdated.cs:172-286 | the step-by-step export computes `ExportRun` |
| PowerBIExport.DispatchedMailsGoToEachRecipient | SendReportingEmailFunctionUpdated.cs:249-262 | after a dispatched export, recipient i got exactly the mail `SendEmailAsync` composes: the report mail with the downloaded bytes under the report's file name, posted as the FromEmailAddress user ("" when unset), delivered exactly when send i succeeded |
| PowerBIExport.RunningRunningSucceeded | SendReportingEmailFunctionUpdated.cs:220-256 | "Running", "Running", "Succeeded" make three status requests and one download, from the reply's resource location |
| PowerBIExport.FailedJobSendsNothing | SendReportingEmailFunctionUpdated.cs:249-271 | a first reply of "Failed" makes one status request, no download and no mail, and ends as a failed job |
| PowerBIExport.TransientFailuresAreRetried | SendReportingEmailFunctionUpdated.cs:228-245 | k failed status requests before "Succeeded" give k + 1 requests and then the download |
| PowerBIExport.InvoicesExportExample | SendReportingEmailFunctionUpdated.cs:172-286 | an invoices request with one account, both dates, a status of two trimmed comma-free words and two recipients, with the job succeeding at once and both sends succeeding: five parameters, two mails titled "Invoice History Report", one to each recipient, both delivered |
| Router.Route | SendReportingEmailFunctionUpdated.cs:51-80 | the mock API is chosen exactly when the mock flag reads true, whatever else is set, so a malformed flag is never routed; Power Automate and Power BI are chosen exactly when the mock flag is false, the delay is valid and the Power Automate flag is true or false respectively; with nothing set, Power BI is chosen |
| Router.MockIgnoresOtherSettings | SendReportingEmailFunctionUpdated.cs:53-60 | with the mock flag on, DelayInSeconds and UsePowerAutomateAPI are never read: changing or removing them keeps the mock route |
| Router.SendReportingEmail | SendReportingEmailFunctionUpdated.cs:51-80 | configuration faults are thrown; on the Power BI path a readable request always returns normally, with the export trace; only that path exports |
| Router.Run | SendReportingEmailFunctionUpdated.cs:36-49 | a message is completed exactly when routing succeeds and the chosen path returns: mock needs a readable request and a success reply, Power Automate a successful call, Power BI only a readable request |
| Router.DefaultIsPowerBI | SendReportingEmailFunctionUpdated.cs:51-80 | with no flags and no delay set, a readable request goes to the Power BI export and the message is completed |

## Left out

- Logging, the HTTP clients, the OAuth token request (`GetAccessToken`) and the Graph client: their effects appear only as the replies in `Backend` and `Services`.
- JSON (de)serialization: the message body is given already decoded, and the status replies are given parsed.
- The export and status URLs, the group id and the scopes. These are string concatenations of configuration values that the model does not reproduce.
- `ProcessMockAPI` and `SendReportingEmailUsingPowerAutomateAsync` are each one success flag. The model does not reproduce the requests those two methods build.
- The wait durations are not modelled: 10 seconds per poll and DelayInSeconds seconds before routing. The unused fields `SLEEP_TIME` and `exportFormat` are also left out.
- The fixed text of the mail's HTML body. Only the file name it quotes is modelled.
- ExportJob.PollExportJob: the finite list of replies ends in `NotTerminated`. In the source, by contrast, the loop polls for as long as the service keeps answering "Running" or failing.
- Null entries in the accounts, products or recipients lists, and null `AccountId`, `Sku` or `EmailId` fields. The lists hold plain strings. In the source, a null entry throws inside `BuildReportingRequest` (outside any `try`) or inside the fan-out (caught by the download `try`).
- Config.ToBoolean: case-insensitive matching is modelled for ASCII letters only.
- Config.ToInt16: models ASCII signs and digits plus the white space that `NumberStyles.Integer` allows. It does not model trailing NUL characters or culture-specific signs.
- `reportingRequest.ReportId` and the message id, which appear only in log lines.
- What the Service Bus runtime does with an uncompleted message (abandon, redelivery, dead-lettering).
- Replaying a message is deterministic in the model, because every operation is a function of its inputs. Nothing further is stated about redelivery.
