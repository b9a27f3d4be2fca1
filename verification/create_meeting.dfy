/** The create-meeting button of src/app/components/CreateMeetingButton.tsx:
    `handleCreateMeeting` posts to the create-conversation route and turns the
    reply into the `result` record the card below the button shows. The click
    is split into `Begin` (before the `await`) and `Settle` (the reply, or the
    exception, arriving). */
module CreateMeeting {
  import opened Common
  import ConversationStore
  import DailyConfig

  /** `{ success?, error?, conversation? }`; `None` fields are absent keys. */
  datatype MeetingResult = MeetingResult(
    success: Option<bool>,
    error: Option<string>,
    conversation: Option<ConversationStore.Conversation>)

  datatype Creator = Creator(isLoading: bool, result: Option<MeetingResult>)

  /** How the request ends: a reply whose body parsed as JSON, carrying the
      body's `conversation` and `error` keys, or an exception from `fetch` or
      from `response.json()`. */
  datatype CreateReply =
    | Replied(ok: bool, conversation: Option<ConversationStore.Conversation>, error: Option<string>)
    | Failed

  const FailedToCreate: string := "Failed to create meeting"
  const NetworkError: string := "Network error occurred"

  function Initial(): (c: Creator)
    ensures !c.isLoading && c.result.None?
  {
    Creator(false, None)
  }

  /** The synchronous part of the click: loading, and the previous result
      cleared. */
  function Begin(c: Creator): (r: Creator)
    ensures r.isLoading && r.result.None?
  {
    Creator(true, None)
  }

  /** The reply's `result`, as the three branches of the `try` build it. */
  function ResultOf(reply: CreateReply): (m: MeetingResult)
    ensures m.success == Some(true) <==> reply.Replied? && reply.ok
    ensures m.success == Some(false) <==> reply.Failed?
    ensures m.success.None? <==> reply.Replied? && !reply.ok
    ensures reply.Replied? && reply.ok ==> m.conversation == reply.conversation && m.error.None?
    ensures reply.Replied? && !reply.ok ==> m.error == Some(OrElse(reply.error, FailedToCreate)) && m.conversation.None?
    ensures reply.Failed? ==> m.error == Some(NetworkError) && m.conversation.None?
  {
    match reply
    case Replied(ok, conversation, error) =>
      if ok then MeetingResult(Some(true), None, conversation)
      else MeetingResult(None, Some(OrElse(error, FailedToCreate)), None)
    case Failed => MeetingResult(Some(false), Some(NetworkError), None)
  }

  /** The request settles: the result is recorded and, by the `finally`,
      loading stops on every path. */
  function Settle(c: Creator, reply: CreateReply): (r: Creator)
    ensures !r.isLoading
    ensures r.result == Some(ResultOf(reply))
  {
    Creator(false, Some(ResultOf(reply)))
  }

  /** The card under the button: nothing without a result, a success card
      (with the meeting URL when the conversation has one) when `success` is
      truthy, and an error alert showing `error` otherwise. */
  datatype Card = NoCard | SuccessCard(meetingUrl: Option<string>) | ErrorCard(message: Option<string>)

  function CardOf(c: Creator): (k: Card)
    ensures k.NoCard? <==> c.result.None?
    ensures k.SuccessCard? <==> c.result.Some? && c.result.value.success == Some(true)
  {
    match c.result
    case None => NoCard
    case Some(m) =>
      if m.success == Some(true) then
        SuccessCard(
          if m.conversation.Some? && m.conversation.value.conversationUrl != "" then Some(m.conversation.value.conversationUrl)
          else None)
      else ErrorCard(m.error)
  }

  /** After a click settles the success card shows exactly when the server
      answered ok, and every failure shows a non-empty message: the server's
      error text, its fallback, or the network error. */
  lemma SettledCard(c: Creator, reply: CreateReply)
    ensures var k := CardOf(Settle(Begin(c), reply));
      && (k.SuccessCard? <==> reply.Replied? && reply.ok)
      && (k.ErrorCard? ==> k.message.Some? && k.message.value != "")
  {
  }

  /** While a request is in flight no card is shown and the button is
      disabled and reads "Creating Meeting..."; once it settles the button is
      enabled again with its normal caption. */
  lemma ButtonFollowsLoading(c: Creator, reply: CreateReply)
    ensures CardOf(Begin(c)).NoCard?
    ensures DailyConfig.CreateButton(Begin(c).isLoading) == DailyConfig.CreateButtonView(true, DailyConfig.CreatingLabel)
    ensures DailyConfig.CreateButton(Settle(Begin(c), reply).isLoading)
      == DailyConfig.CreateButtonView(false, DailyConfig.CreateLabel)
  {
  }

  /** A non-ok reply without an `error` key, or with an empty one, falls back
      to "Failed to create meeting", while its `success` stays unset rather
      than false. */
  lemma NonOkFallback(conversation: Option<ConversationStore.Conversation>)
    ensures ResultOf(Replied(false, conversation, None)) == MeetingResult(None, Some(FailedToCreate), None)
    ensures ResultOf(Replied(false, conversation, Some(""))) == MeetingResult(None, Some(FailedToCreate), None)
  {
  }
}
