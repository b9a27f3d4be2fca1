/** The `POST /api/send-feedback` route (src/app/api/send-feedback/route.ts):
    validate the two required fields, check that a webhook is configured,
    fill in defaults and forward the payload to the webhook. The parsed
    request body, the environment variable, the clock and the webhook's
    reply are parameters; the result says what was sent and what the route
    answers. */
module SendFeedback {
  import opened Common
  import opened Transcript

  /** The parsed JSON body; `None` fields are absent keys. */
  datatype FeedbackRequest = FeedbackRequest(
    issueResolved: Option<string>,
    conversationId: Option<string>,
    feedback: Option<string>,
    userAccount: Option<string>,
    chatTranscript: Option<ChatTranscript>)

  /** What is posted to the webhook. */
  datatype WebhookPayload = WebhookPayload(
    issueResolved: string,
    conversationId: string,
    feedback: string,
    userAccount: string,
    chatTranscript: ChatTranscript,
    timestamp: string)

  /** The webhook's reply. `json` is the reply body when it parses as JSON,
      kept as its text. `Threw` covers every exception on the way. */
  datatype WebhookReply =
    | Replied(ok: bool, status: nat, statusText: string, json: Option<string>)
    | Threw

  datatype ResponseBody =
    | ErrorBody(error: string, details: Option<string>)
    | SuccessBody(message: string, webhookResponse: string)

  datatype RouteResult = RouteResult(status: nat, body: ResponseBody, sent: Option<WebhookPayload>)

  const MissingFieldsError: string := "Missing required fields: IssueResolved and ConversationID are required"
  const NoWebhookError: string := "Feedback webhook URL not configured. Please set FEEDBACK_WEBHOOK_URL in environment variables."
  const WebhookFailedError: string := "Failed to send feedback to webhook"
  const InternalError: string := "Internal server error while sending feedback"
  const SentMessage: string := "Feedback sent successfully to webhook"

  /** The text of an empty JSON object, what an unparsable success reply becomes. */
  const EmptyJsonObject: string := "{}"

  /** Both required fields are present and non-empty. `IssueResolved` is
      checked for truthiness only, not for being `'yes'` or `'no'`. */
  predicate HasRequiredFields(req: FeedbackRequest) {
    Truthy(req.issueResolved) && Truthy(req.conversationId)
  }

  /** The payload with its defaults filled in. */
  function BuildPayload(req: FeedbackRequest, now: string): (p: WebhookPayload)
    requires HasRequiredFields(req)
    ensures p.issueResolved == req.issueResolved.value && p.conversationId == req.conversationId.value
    ensures p.feedback == OrElse(req.feedback, "")
    ensures p.userAccount == OrElse(req.userAccount, "")
    ensures req.chatTranscript.None? ==> p.chatTranscript == EmptyTranscript
    ensures req.chatTranscript.Some? ==> p.chatTranscript == req.chatTranscript.value
    ensures p.timestamp == now
  {
    WebhookPayload(
      req.issueResolved.value,
      req.conversationId.value,
      OrElse(req.feedback, ""),
      OrElse(req.userAccount, ""),
      req.chatTranscript.GetOr(EmptyTranscript),
      now)
  }

  /** `Webhook returned <status>: <statusText>`. */
  function FailureDetails(status: nat, statusText: string): string {
    "Webhook returned " + NatToString(status) + ": " + statusText
  }

  /** The handler. `body` is `None` when `request.json()` throws; `reply`
      is consulted only once a payload has been sent. */
  function Post(body: Option<FeedbackRequest>, webhookUrl: Option<string>, now: string, reply: WebhookReply): (r: RouteResult)
    ensures r.sent.Some? <==> body.Some? && HasRequiredFields(body.value) && Truthy(webhookUrl)
    ensures r.sent.Some? ==> r.sent.value == BuildPayload(body.value, now)
    ensures r.status == 400 <==> body.Some? && !HasRequiredFields(body.value)
    ensures r.status == 200 <==> r.sent.Some? && reply.Replied? && reply.ok
    ensures r.status == 200 || r.status == 400 || r.status == 500
    ensures r.status == 200 <==> r.body.SuccessBody?
    ensures r.body == ErrorBody(InternalError, None) <==> body.None? || (r.sent.Some? && reply.Threw?)
    ensures r.body == ErrorBody(InternalError, None) ==> r.status == 500
  {
    match body
    case None => RouteResult(500, ErrorBody(InternalError, None), None)
    case Some(req) =>
      if !HasRequiredFields(req) then
        RouteResult(400, ErrorBody(MissingFieldsError, None), None)
      else if !Truthy(webhookUrl) then
        RouteResult(500, ErrorBody(NoWebhookError, None), None)
      else
        var payload := BuildPayload(req, now);
        match reply
        case Threw => RouteResult(500, ErrorBody(InternalError, None), Some(payload))
        case Replied(ok, status, statusText, json) =>
          if !ok then
            RouteResult(500, ErrorBody(WebhookFailedError, Some(FailureDetails(status, statusText))), Some(payload))
          else
            RouteResult(200, SuccessBody(SentMessage, json.GetOr(EmptyJsonObject)), Some(payload))
  }

  /** Field validation comes first: a request missing either field gets 400
      and no outbound call, whether or not a webhook is configured and
      whatever the webhook would have answered. */
  lemma ValidationPrecedesEverything(req: FeedbackRequest, url: Option<string>, now: string, reply: WebhookReply)
    requires !HasRequiredFields(req)
    ensures Post(Some(req), url, now, reply) == RouteResult(400, ErrorBody(MissingFieldsError, None), None)
  {
  }

  /** With valid fields but no webhook URL the route answers 500 without any
      outbound call. */
  lemma MissingWebhookUrl(req: FeedbackRequest, now: string, reply: WebhookReply)
    requires HasRequiredFields(req)
    ensures Post(Some(req), None, now, reply) == RouteResult(500, ErrorBody(NoWebhookError, None), None)
    ensures Post(Some(req), Some(""), now, reply) == RouteResult(500, ErrorBody(NoWebhookError, None), None)
  {
  }

  /** An unparsable request body, or an exception while the webhook is
      called, ends in the catch block: 500 with the generic internal error
      and no details. */
  lemma CatchPath(req: FeedbackRequest, url: string, now: string, reply: WebhookReply)
    requires HasRequiredFields(req) && url != ""
    ensures Post(None, Some(url), now, reply) == RouteResult(500, ErrorBody(InternalError, None), None)
    ensures Post(Some(req), Some(url), now, Threw)
      == RouteResult(500, ErrorBody(InternalError, None), Some(BuildPayload(req, now)))
  {
  }

  /** A non-ok webhook reply gives 500 with the failure details. */
  lemma WebhookFailure(req: FeedbackRequest, url: string, now: string, status: nat, statusText: string, json: Option<string>)
    requires HasRequiredFields(req) && url != ""
    ensures Post(Some(req), Some(url), now, Replied(false, status, statusText, json))
      == RouteResult(500, ErrorBody(WebhookFailedError, Some(FailureDetails(status, statusText))), Some(BuildPayload(req, now)))
  {
  }

  /** The details carry the reply's status and status text, both
      recoverable from the message. */
  lemma FailureDetailsReadBack(status: nat, statusText: string)
    ensures var d := FailureDetails(status, statusText);
      var digits := NatToString(status);
      && d[..17] == "Webhook returned "
      && ParseDecimal(d[17..17 + |digits|]) == status
      && d[17 + |digits|..] == ": " + statusText
  {
    var d := FailureDetails(status, statusText);
    var digits := NatToString(status);
    assert d == "Webhook returned " + digits + ": " + statusText;
    assert d[17..17 + |digits|] == digits;
    ParseNatToString(status);
  }

  /** An ok reply succeeds even when its body is not JSON, which is reported
      as an empty object. */
  lemma WebhookSuccess(req: FeedbackRequest, url: string, now: string, status: nat, statusText: string)
    requires HasRequiredFields(req) && url != ""
    ensures Post(Some(req), Some(url), now, Replied(true, status, statusText, None)).body
      == SuccessBody(SentMessage, EmptyJsonObject)
  {
  }

  /** Any non-empty `IssueResolved` text passes validation, not only
      `'yes'` or `'no'`, whatever the optional fields hold. */
  lemma IssueResolvedOnlyNeedsTruthiness(verdict: string, id: string, feedback: Option<string>,
                                         account: Option<string>, transcript: Option<ChatTranscript>)
    requires verdict != "" && id != ""
    ensures HasRequiredFields(FeedbackRequest(Some(verdict), Some(id), feedback, account, transcript))
  {
  }
}
