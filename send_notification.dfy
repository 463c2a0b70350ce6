/**
 * The notification function (supabase/functions/send-notification/index.ts):
 * the subject and HTML chosen for each notification type, and the statuses
 * the handler answers with. The email API is a parameter.
 */
module SendNotification {
  import opened Wrappers
  import opened JsStrings
  import opened FetchApi

  /** The optional fields of a request's `data`. */
  datatype NotificationData = NotificationData(
    candidateName: Option<string>,
    jobTitle: Option<string>,
    companyName: Option<string>,
    interviewDate: Option<string>,
    status: Option<string>,
    message: Option<string>)

  datatype EmailContent = EmailContent(subject: string, html: string)

  /** How a template literal renders an optional field: an absent one reads "undefined". */
  function Show(field: Option<string>): string {
    match field
    case None => "undefined"
    case Some(s) => s
  }

  /** `t` occurs in `s` at position `i`. */
  ghost predicate OccursAt(s: string, t: string, i: int) {
    0 <= i <= |s| - |t| && s[i..i + |t|] == t
  }

  ghost predicate Contains(s: string, t: string) {
    exists i :: OccursAt(s, t, i)
  }

  lemma ContainsMiddle(a: string, t: string, b: string)
    ensures Contains(a + t + b, t)
  {
    assert (a + t + b)[|a|..|a| + |t|] == t;
    assert OccursAt(a + t + b, t, |a|);
  }

  const Indent := "\n          "
  const Closing := "\n        "

  // The fixed text of each template, between the fields it interpolates.

  const ApplicationOpen := Indent + "<h1>New Application Received</h1>" + Indent + "<p><strong>"
  const ApplicationMid := "</strong> has applied for the <strong>"
  const ApplicationClose := "</strong> position.</p>"
    + Indent + "<p>Log in to HireSense AI to review their application and resume.</p>"
    + Indent + "<p>Best regards,<br/>HireSense AI Team</p>" + Closing

  const ShortlistedOpen := Indent + "<h1>Congratulations!</h1>"
    + Indent + "<p>You've been shortlisted for the <strong>"
  const ShortlistedMid := "</strong> position at <strong>"
  const ShortlistedClose := "</strong>.</p>"
    + Indent + "<p>The hiring team will reach out to you soon with next steps.</p>"
    + Indent + "<p>Best of luck!<br/>HireSense AI Team</p>" + Closing

  const InterviewOpen := Indent + "<h1>Interview Scheduled</h1>" + Indent + "<p>Your interview for <strong>"
  const InterviewMid := "</strong> at <strong>"
  const InterviewLead := "</strong> has been scheduled.</p>" + Indent
  const DateLabel := "<p><strong>Date & Time:</strong> "
  const InterviewClose := "</p>"
    + Indent + "<p>Please ensure you're prepared and join on time.</p>"
    + Indent + "<p>Good luck!<br/>HireSense AI Team</p>" + Closing

  const StatusOpen := Indent + "<h1>Application Status Update</h1>" + Indent + "<p>Your application for <strong>"
  const StatusMid := "</strong> at <strong>"
  const StatusValueOpen := "</strong> has been updated.</p>" + Indent + "<p><strong>New Status:</strong> "
  const StatusValueClose := "</p>" + Indent
  const StatusClose := Indent + "<p>Best regards,<br/>HireSense AI Team</p>" + Closing

  /** The paragraph `status_update` adds for a truthy message. */
  const MessageMarker := "<p><strong>Message:</strong> "

  function MessageParagraph(message: Option<string>): string {
    if Present(message) then MessageMarker + message.value + "</p>" else ""
  }

  /** The `status_update` HTML up to the slot of the optional message paragraph. */
  function StatusUpdateHead(data: NotificationData): string {
    StatusOpen + Show(data.jobTitle) + StatusMid + Show(data.companyName)
    + StatusValueOpen + Show(data.status) + StatusValueClose
  }

  /** `getEmailContent`: the subject and HTML of each notification type. */
  function GetEmailContent(kind: string, data: NotificationData): (r: EmailContent)
    ensures kind == "application_received" ==>
              r.subject == "New Application: " + Show(data.candidateName) + " for " + Show(data.jobTitle)
    ensures kind == "shortlisted" ==>
              r.subject == "Great news! You've been shortlisted for " + Show(data.jobTitle)
    ensures kind == "interview_scheduled" ==>
              r.subject == "Interview Scheduled: " + Show(data.jobTitle) + " at " + Show(data.companyName)
    ensures kind == "status_update" ==>
              r.subject == "Application Update: " + Show(data.jobTitle)
    ensures kind !in {"application_received", "shortlisted", "interview_scheduled", "status_update"} ==>
              r.subject == "Notification from HireSense AI" &&
              r.html == "<p>" + (if Present(data.message) then data.message.value else "You have a new notification.") + "</p>"
  {
    match kind
    case "application_received" =>
      EmailContent(
        "New Application: " + Show(data.candidateName) + " for " + Show(data.jobTitle),
        ApplicationOpen + Show(data.candidateName) + ApplicationMid + Show(data.jobTitle) + ApplicationClose)
    case "shortlisted" =>
      EmailContent(
        "Great news! You've been shortlisted for " + Show(data.jobTitle),
        ShortlistedOpen + Show(data.jobTitle) + ShortlistedMid + Show(data.companyName) + ShortlistedClose)
    case "interview_scheduled" =>
      EmailContent(
        "Interview Scheduled: " + Show(data.jobTitle) + " at " + Show(data.companyName),
        InterviewOpen + Show(data.jobTitle) + InterviewMid + Show(data.companyName)
        + InterviewLead + DateLabel + Show(data.interviewDate) + InterviewClose)
    case "status_update" =>
      EmailContent(
        "Application Update: " + Show(data.jobTitle),
        StatusUpdateHead(data) + MessageParagraph(data.message) + StatusClose)
    case _ =>
      EmailContent(
        "Notification from HireSense AI",
        "<p>" + (if Present(data.message) then data.message.value else "You have a new notification.") + "</p>")
  }

  /** Both interpolated fields of a two-field template occur in its output. */
  lemma TwoFieldsOccur(a: string, x: string, b: string, y: string, c: string)
    ensures Contains(a + x + b + y + c, x) && Contains(a + x + b + y + c, y)
  {
    assert a + x + b + y + c == a + x + (b + y + c);
    ContainsMiddle(a, x, b + y + c);
    ContainsMiddle(a + x + b, y, c);
  }

  /** The application email names the candidate and the job. */
  lemma ApplicationNamesCandidateAndJob(data: NotificationData)
    ensures var html := GetEmailContent("application_received", data).html;
            Contains(html, Show(data.candidateName)) && Contains(html, Show(data.jobTitle))
  {
    TwoFieldsOccur(ApplicationOpen, Show(data.candidateName), ApplicationMid, Show(data.jobTitle), ApplicationClose);
  }

  /** The shortlisting email names both the job and the company. */
  lemma ShortlistedNamesJobAndCompany(data: NotificationData)
    ensures var html := GetEmailContent("shortlisted", data).html;
            Contains(html, Show(data.jobTitle)) && Contains(html, Show(data.companyName))
  {
    TwoFieldsOccur(ShortlistedOpen, Show(data.jobTitle), ShortlistedMid, Show(data.companyName), ShortlistedClose);
  }

  /** A tag followed by a field occurs, tag and field together, in the output. */
  lemma LabelledFieldOccurs(a: string, tag: string, x: string, b: string)
    ensures Contains(a + tag + x + b, tag + x)
  {
    assert a + tag + x + b == a + (tag + x) + b;
    ContainsMiddle(a, tag + x, b);
  }

  /** The interview email gives the date and time of the interview, under its label. */
  lemma InterviewGivesDate(data: NotificationData)
    ensures Contains(GetEmailContent("interview_scheduled", data).html, DateLabel + Show(data.interviewDate))
  {
    LabelledFieldOccurs(InterviewOpen + Show(data.jobTitle) + InterviewMid + Show(data.companyName) + InterviewLead,
                        DateLabel, Show(data.interviewDate), InterviewClose);
  }

  /** A field followed by three pieces of text occurs in the output. */
  lemma FieldOccurs(a: string, x: string, b: string, c: string, d: string)
    ensures Contains(a + x + b + c + d, x)
  {
    assert a + x + b + c + d == a + x + (b + c + d);
    ContainsMiddle(a, x, b + c + d);
  }

  /** The status email gives the new status. */
  lemma StatusUpdateGivesStatus(data: NotificationData)
    ensures Contains(GetEmailContent("status_update", data).html, Show(data.status))
  {
    var before := StatusOpen + Show(data.jobTitle) + StatusMid + Show(data.companyName) + StatusValueOpen;
    var para := MessageParagraph(data.message);
    assert GetEmailContent("status_update", data).html == StatusUpdateHead(data) + para + StatusClose;
    FieldOccurs(before, Show(data.status), StatusValueClose, para, StatusClose);
  }

  /**
   * Right after the status paragraph of the status email comes a "Message:"
   * paragraph exactly when the message is non-empty, and it holds that message.
   */
  lemma StatusUpdateMessageParagraph(data: NotificationData)
    ensures var html := GetEmailContent("status_update", data).html;
            var k := |StatusUpdateHead(data)|;
            && k <= |html|
            && (StartsWith(html[k..], MessageMarker) <==> Present(data.message))
            && (Present(data.message) ==> StartsWith(html[k..], MessageMarker + data.message.value + "</p>"))
  {
    var head := StatusUpdateHead(data);
    var para := MessageParagraph(data.message);
    assert GetEmailContent("status_update", data).html == head + para + StatusClose;
    MessageSlot(head, data.message);
  }

  /**
   * After `head`, an optional paragraph that is empty or starts with
   * `marker`, then a tail that cannot start like `marker`: the marker follows
   * `head` exactly when the paragraph is there.
   */
  lemma OptionalParagraph(head: string, para: string, marker: string, body: string, tail: string)
    requires para == "" || para == marker + body
    requires |marker| > 0 && |tail| > 0 && tail[0] != marker[0]
    ensures var html := head + para + tail;
            && |head| <= |html|
            && (StartsWith(html[|head|..], marker) <==> para != "")
            && (para != "" ==> StartsWith(html[|head|..], marker + body))
  {
    var html := head + para + tail;
    assert html[|head|..] == para + tail;
    if para != "" {
      assert (para + tail)[..|para|] == para;
      assert para[..|marker|] == marker;
    } else {
      assert (para + tail)[0] == tail[0];
    }
  }

  /** The slot after `head` holds the "Message:" paragraph exactly when the message is non-empty. */
  lemma MessageSlot(head: string, message: Option<string>)
    ensures var html := head + MessageParagraph(message) + StatusClose;
            && |head| <= |html|
            && (StartsWith(html[|head|..], MessageMarker) <==> Present(message))
            && (Present(message) ==> StartsWith(html[|head|..], MessageMarker + message.value + "</p>"))
  {
    var body := if Present(message) then message.value + "</p>" else "";
    assert Present(message) ==> MessageParagraph(message) == MessageMarker + body;
    assert StatusClose[0] == '\n' && MessageMarker[0] == '<';
    OptionalParagraph(head, MessageParagraph(message), MessageMarker, body, StatusClose);
  }

  // ---------------------------------------------------------------------------
  // The handler
  // ---------------------------------------------------------------------------

  /** What is posted to the email API. */
  datatype OutgoingEmail = OutgoingEmail(from: string, to: seq<string>, subject: string, html: string)

  /** The email API's answer: its status and, on success, the id in its JSON body. */
  datatype EmailApiReply = EmailApiReply(status: nat, id: string)

  datatype NotifyBody = Sent(id: string) | Failed(error: string)

  /** The response of the function and the email it posted, if it got that far. */
  datatype NotifyResult = NotifyResult(status: int, body: NotifyBody, posted: Option<OutgoingEmail>)

  const Sender := "HireSense AI <onboarding@resend.dev>"

  const SendFailurePrefix := "Failed to send email: "

  /** The error for a failing email API: the prefix, then the shortest numeral of its status. */
  function SendFailure(status: nat): (e: string)
    ensures StartsWith(e, SendFailurePrefix)
    ensures var digits := e[|SendFailurePrefix|..];
            && |digits| > 0 && (digits[0] == '0' ==> |digits| == 1)
            && (forall i :: 0 <= i < |digits| ==> '0' <= digits[i] <= '9')
            && DecimalValue(digits) == status
  {
    var e := SendFailurePrefix + Decimal(status);
    assert e[|SendFailurePrefix|..] == Decimal(status);
    DecimalRoundTrip(status);
    e
  }

  /**
   * A POST to the function: without an API key nothing is posted and the
   * answer is 500; otherwise the chosen content is posted to the recipient,
   * and a failing email API turns into a 500 naming its status.
   */
  function HandleNotification(apiKey: Option<string>, kind: string, recipientEmail: string,
                              data: NotificationData, emailApi: OutgoingEmail -> EmailApiReply): (r: NotifyResult)
    ensures !Present(apiKey) ==> r == NotifyResult(500, Failed("Email service is not configured"), None)
    ensures Present(apiKey) ==>
              var content := GetEmailContent(kind, data);
              r.posted == Some(OutgoingEmail(Sender, [recipientEmail], content.subject, content.html))
    ensures Present(apiKey) ==>
              var reply := emailApi(r.posted.value);
              && (IsOk(reply.status) ==> r.status == 200 && r.body == Sent(reply.id))
              && (!IsOk(reply.status) ==> r.status == 500 && r.body == Failed(SendFailure(reply.status)))
  {
    if !Present(apiKey) then
      NotifyResult(500, Failed("Email service is not configured"), None)
    else
      var content := GetEmailContent(kind, data);
      var email := OutgoingEmail(Sender, [recipientEmail], content.subject, content.html);
      var reply := emailApi(email);
      if !IsOk(reply.status) then
        NotifyResult(500, Failed(SendFailure(reply.status)), Some(email))
      else
        NotifyResult(200, Sent(reply.id), Some(email))
  }

}
