/**
 * The mails that carry an exported report: `SendEmailAsync` builds one
 * Microsoft Graph send-mail request per recipient and posts it as the
 * configured sender, and `ProcessEmailRequestAsync` does so for every
 * recipient of the request, in order. A failed send is logged and
 * swallowed, so it never stops the remaining ones.
 */
module Mail {
  import opened Common
  import opened Config

  const FileAttachmentODataType := "#microsoft.graph.fileAttachment"
  const SpreadsheetContentType := "application/vnd.openxmlformats-officedocument.spreadsheetml.sheet"
  const AttachmentExtension := ".xlsx"

  /** The HTML body. Its fixed text is not reproduced; what varies is the
      report's file name, which it quotes. */
  datatype HtmlBody = HtmlBody(quotedFileName: string)

  datatype FileAttachment = FileAttachment(odataType: string, name: string, contentBytes: seq<byte>, contentType: string)

  datatype Message = Message(
    subject: string,
    body: HtmlBody,
    toRecipients: seq<string>,
    attachments: seq<FileAttachment>)

  /** A send-mail request: the user it is posted as, the message and the
      `SaveToSentItems` flag. */
  datatype SendMailRequest = SendMailRequest(sender: string, message: Message, saveToSentItems: bool)

  /** The request `SendEmailAsync` posts for one recipient. */
  function ComposeMail(env: Env, fileName: string, emailId: string, fileData: seq<byte>): SendMailRequest {
    SendMailRequest(
      GetOrEmpty(env, FromEmailAddressKey),
      Message(
        fileName,
        HtmlBody(fileName),
        [emailId],
        [FileAttachment(FileAttachmentODataType, fileName + AttachmentExtension, fileData, SpreadsheetContentType)]),
      false)
  }

  /** What every report mail looks like: one recipient, the report as its
      only attachment, a spreadsheet named after the subject, and not kept in
      the sender's sent items. */
  predicate IsReportMail(m: SendMailRequest, fileName: string, fileData: seq<byte>) {
    && m.message.subject == fileName
    && m.message.body == HtmlBody(fileName)
    && |m.message.toRecipients| == 1
    && |m.message.attachments| == 1
    && m.message.attachments[0].name == m.message.subject + ".xlsx"
    && m.message.attachments[0].contentBytes == fileData
    && m.message.attachments[0].contentType == SpreadsheetContentType
    && m.message.attachments[0].odataType == FileAttachmentODataType
    && !m.saveToSentItems
  }

  /** The recipient of a report mail. */
  function Recipient(m: SendMailRequest): string
    requires |m.message.toRecipients| == 1
  {
    m.message.toRecipients[0]
  }

  /** A composed mail is a report mail addressed to exactly the given
      recipient, sent as the FromEmailAddress user ("" when unset). */
  lemma ComposeMailIsReportMail(env: Env, fileName: string, emailId: string, fileData: seq<byte>)
    ensures var m := ComposeMail(env, fileName, emailId, fileData);
            && IsReportMail(m, fileName, fileData)
            && Recipient(m) == emailId
            && (FromEmailAddressKey in env ==> m.sender == env[FromEmailAddressKey])
            && (FromEmailAddressKey !in env ==> m.sender == "")
  {
  }

  /** Two mails of one fan-out differ in their recipient and nothing else. */
  lemma MailsDifferOnlyInRecipient(env: Env, fileName: string, a: string, b: string, fileData: seq<byte>)
    ensures var ma := ComposeMail(env, fileName, a, fileData);
            ma.(message := ma.message.(toRecipients := [b])) == ComposeMail(env, fileName, b, fileData)
  {
  }

  /** A report mail is determined by its sender, file name, data and recipient. */
  lemma ReportMailIsComposed(m: SendMailRequest, env: Env, fileName: string, fileData: seq<byte>)
    requires IsReportMail(m, fileName, fileData)
    requires m.sender == GetOrEmpty(env, FromEmailAddressKey)
    ensures m == ComposeMail(env, fileName, Recipient(m), fileData)
  {
    assert m.message.toRecipients == [Recipient(m)];
    assert m.message.attachments == [m.message.attachments[0]];
  }

  // ---------------------------------------------------------------------------
  // The fan-out over the recipients

  /** The mails of a fan-out, one per recipient, in order. */
  function FanOut(env: Env, fileName: string, emailIds: seq<string>, fileData: seq<byte>): (ms: seq<SendMailRequest>)
    ensures |ms| == |emailIds|
  {
    if emailIds == [] then []
    else FanOut(env, fileName, emailIds[..|emailIds| - 1], fileData)
         + [ComposeMail(env, fileName, emailIds[|emailIds| - 1], fileData)]
  }

  /** Whether attempt `i` gets through: `sends` lists the outcomes of the
      Graph posts in order, and an attempt past its end fails. */
  function SendSucceeds(sends: seq<bool>, i: nat): bool {
    i < |sends| && sends[i]
  }

  /** The outcomes of `n` attempts. */
  function Deliveries(n: nat, sends: seq<bool>): (ds: seq<bool>)
    ensures |ds| == n
  {
    if n == 0 then [] else Deliveries(n - 1, sends) + [SendSucceeds(sends, n - 1)]
  }

  /** `ProcessEmailRequestAsync` over a non-null list of recipients: one send
      attempt per recipient, in order, each caught on failure. `sent` lists
      the requests posted and `delivered` whether each got through. */
  method ProcessEmailRequest(env: Env, fileName: string, emailIds: seq<string>, fileData: seq<byte>, sends: seq<bool>)
    returns (sent: seq<SendMailRequest>, delivered: seq<bool>)
    ensures sent == FanOut(env, fileName, emailIds, fileData)
    ensures delivered == Deliveries(|emailIds|, sends)
  {
    sent, delivered := [], [];
    for i := 0 to |emailIds|
      invariant sent == FanOut(env, fileName, emailIds[..i], fileData)
      invariant delivered == Deliveries(i, sends)
    {
      assert emailIds[..i + 1][..i] == emailIds[..i];
      var request := ComposeMail(env, fileName, emailIds[i], fileData);
      var ok := SendSucceeds(sends, i);
      sent := sent + [request];
      delivered := delivered + [ok];
    }
    assert emailIds[..|emailIds|] == emailIds;
  }

  /** Mail `i` of a fan-out is the report mail to recipient `i`. */
  lemma {:induction false} FanOutAt(env: Env, fileName: string, emailIds: seq<string>, fileData: seq<byte>, i: int)
    requires 0 <= i < |emailIds|
    ensures FanOut(env, fileName, emailIds, fileData)[i] == ComposeMail(env, fileName, emailIds[i], fileData)
  {
    if i < |emailIds| - 1 {
      FanOutAt(env, fileName, emailIds[..|emailIds| - 1], fileData, i);
    }
  }

  /** Attempt `i` gets through exactly when its own send does. */
  lemma {:induction false} DeliveriesAt(n: nat, sends: seq<bool>, i: int)
    requires 0 <= i < n
    ensures Deliveries(n, sends)[i] == (i < |sends| && sends[i])
  {
    if i < n - 1 {
      DeliveriesAt(n - 1, sends, i);
    }
  }

  /** A fan-out to N recipients makes N attempts, attempt i being the report
      mail to recipient i, whatever the other attempts did: a failed send
      neither stops the later ones nor changes what they send. */
  lemma FanOutFailuresAreIsolated(env: Env, fileName: string, emailIds: seq<string>, fileData: seq<byte>,
                                  sends: seq<bool>, other: seq<bool>, i: int)
    requires 0 <= i < |emailIds|
    requires i < |sends| && i < |other| && sends[i] == other[i]
    ensures |FanOut(env, fileName, emailIds, fileData)| == |Deliveries(|emailIds|, sends)| == |emailIds|
    ensures IsReportMail(FanOut(env, fileName, emailIds, fileData)[i], fileName, fileData)
    ensures Recipient(FanOut(env, fileName, emailIds, fileData)[i]) == emailIds[i]
    ensures Deliveries(|emailIds|, sends)[i] == Deliveries(|emailIds|, other)[i]
  {
    FanOutAt(env, fileName, emailIds, fileData, i);
    DeliveriesAt(|emailIds|, sends, i);
    DeliveriesAt(|emailIds|, other, i);
  }
}
