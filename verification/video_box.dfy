/** The session lifecycle of src/components/video-box.tsx: starting a Tavus
    conversation, routing the call's `app-message` events into the message
    log and the speaking flags, ending the call, the feedback round and the
    "latest message" context sent back to the replica. The component's state
    hooks become one record; the Daily call object, the fetch replies, fresh
    ids and the clock are parameters, and each handler returns the requests
    it issues. */
module VideoBox {
  import opened Common
  import opened Transcript
  import opened Messages
  import FeedbackDialog
  import SendFeedback
  import Daily

  datatype VideoBox = VideoBox(
    showOverlay: bool,
    isInChat: bool,
    isConnected: bool,
    conversationId: Option<string>,
    conversationUrl: Option<string>,
    showFeedback: bool,
    isReplicaSpeaking: bool,
    isUserSpeaking: bool,
    messages: seq<ChatMessage>)

  function Initial(): (s: VideoBox)
    ensures s.showOverlay && !s.isInChat && !s.isConnected && !s.showFeedback
    ensures s.conversationId.None? && s.conversationUrl.None? && s.messages == []
  {
    VideoBox(true, false, false, None, None, false, false, false, [])
  }

  const ConversationMessage: string := "conversation"
  const UtteranceEvent: string := "conversation.utterance"
  const ReplicaStarted: string := "conversation.replica.started_speaking"
  const ReplicaStopped: string := "conversation.replica.stopped_speaking"
  const UserStarted: string := "conversation.user.started_speaking"
  const UserStopped: string := "conversation.user.stopped_speaking"

  predicate IsConversationEvent(data: Option<Messages.UtteranceEvent>, eventType: string) {
    data.Some? && data.value.messageType == ConversationMessage && data.value.eventType == eventType
  }

  /** The `app-message` listener. `data` is `event.data`; only a
      conversation utterance reaches the aggregator, the four speaking events
      each set their own flag, and system messages, unknown event types or a
      missing payload change nothing. */
  function HandleAppMessage(s: VideoBox, data: Option<Messages.UtteranceEvent>, freshId: string, now: Instant): (r: VideoBox)
    ensures r.(messages := s.messages, isReplicaSpeaking := s.isReplicaSpeaking, isUserSpeaking := s.isUserSpeaking) == s
    ensures r.messages != s.messages ==> IsConversationEvent(data, UtteranceEvent)
    ensures IsConversationEvent(data, UtteranceEvent) ==> r.messages == AddUtteranceMessage(s.messages, data.value, freshId, now)
    ensures r.isReplicaSpeaking != s.isReplicaSpeaking ==>
      IsConversationEvent(data, ReplicaStarted) || IsConversationEvent(data, ReplicaStopped)
    ensures r.isUserSpeaking != s.isUserSpeaking ==>
      IsConversationEvent(data, UserStarted) || IsConversationEvent(data, UserStopped)
  {
    match data
    case None => s
    case Some(e) =>
      if e.messageType != ConversationMessage then s
      else if e.eventType == UtteranceEvent then s.(messages := AddUtteranceMessage(s.messages, e, freshId, now))
      else if e.eventType == ReplicaStarted then s.(isReplicaSpeaking := true)
      else if e.eventType == ReplicaStopped then s.(isReplicaSpeaking := false)
      else if e.eventType == UserStarted then s.(isUserSpeaking := true)
      else if e.eventType == UserStopped then s.(isUserSpeaking := false)
      else s
  }

  /** The speaking events set their flag and touch nothing else. */
  lemma SpeakingEvents(s: VideoBox, e: Messages.UtteranceEvent, freshId: string, now: Instant)
    requires e.messageType == ConversationMessage
    ensures e.eventType == ReplicaStarted ==> HandleAppMessage(s, Some(e), freshId, now) == s.(isReplicaSpeaking := true)
    ensures e.eventType == ReplicaStopped ==> HandleAppMessage(s, Some(e), freshId, now) == s.(isReplicaSpeaking := false)
    ensures e.eventType == UserStarted ==> HandleAppMessage(s, Some(e), freshId, now) == s.(isUserSpeaking := true)
    ensures e.eventType == UserStopped ==> HandleAppMessage(s, Some(e), freshId, now) == s.(isUserSpeaking := false)
  {
  }

  /** Missing data, system messages and unknown conversation events are
      ignored. */
  lemma IgnoredMessages(s: VideoBox, e: Messages.UtteranceEvent, freshId: string, now: Instant)
    ensures HandleAppMessage(s, None, freshId, now) == s
    ensures e.messageType != ConversationMessage ==> HandleAppMessage(s, Some(e), freshId, now) == s
    ensures e.eventType !in {UtteranceEvent, ReplicaStarted, ReplicaStopped, UserStarted, UserStopped} ==>
      HandleAppMessage(s, Some(e), freshId, now) == s
  {
  }

  /** The reply to `POST /api/create-conversation`. */
  datatype CreateReply =
    | Created(conversationId: Option<string>, conversationUrl: Option<string>)
    | CreateNotOk
    | CreateThrew

  datatype StartResult = StartResult(next: VideoBox, joinUrl: Option<string>)

  /** `handleStartConversation`. A non-ok reply throws before any setter
      runs and the error is swallowed; a created conversation stores its id
      and URL, enters the chat, hides the overlay and clears the previous
      messages, then joins the call when there is a call object and a URL. */
  function HandleStartConversation(s: VideoBox, reply: CreateReply, hasCallObject: bool): (r: StartResult)
    ensures !reply.Created? ==> r == StartResult(s, None)
    ensures reply.Created? ==>
      && r.next.conversationId == reply.conversationId && r.next.conversationUrl == reply.conversationUrl
      && r.next.isInChat && !r.next.showOverlay && r.next.messages == []
      && r.next.isConnected == s.isConnected && r.next.showFeedback == s.showFeedback
    ensures r.joinUrl.Some? <==> reply.Created? && hasCallObject && Truthy(reply.conversationUrl)
    ensures r.joinUrl.Some? ==> r.joinUrl == r.next.conversationUrl
  {
    match reply
    case Created(id, url) =>
      var next := s.(conversationId := id, conversationUrl := url, isInChat := true, showOverlay := false,
                     messages := ClearMessages(s.messages));
      StartResult(next, if hasCallObject && Truthy(url) then url else None)
    case _ => StartResult(s, None)
  }

  /** `joined-meeting`: the call is connected. */
  function HandleJoinedMeeting(s: VideoBox): (r: VideoBox)
    ensures r.isConnected && r.(isConnected := s.isConnected) == s
  {
    s.(isConnected := true)
  }

  /** The participant effect: in chat, with participants and not yet
      connected, the box marks itself connected. */
  function HandleParticipantsChanged(s: VideoBox, participantCount: nat): (r: VideoBox)
    ensures r.isConnected <==> s.isConnected || (s.isInChat && participantCount > 0)
    ensures r.(isConnected := s.isConnected) == s
  {
    if participantCount > 0 && s.isInChat && !s.isConnected then s.(isConnected := true) else s
  }

  datatype EndResult = EndResult(next: VideoBox, endRequest: Option<string>, leavesCall: bool)

  /** `handleEndCall`, also run on `left-meeting`. The end request goes out
      only with a conversation id; its reply is only logged, so it is not a
      parameter. The call is left whenever there is a call object;
      `leaveOk` is whether `daily.leave()` resolves. Its rejection is caught
      nowhere, so the setters after it are skipped and the box keeps its
      state. Otherwise the box disconnects, drops the URL and opens the
      feedback dialog, keeping the id for the feedback. */
  function HandleEndCall(s: VideoBox, hasCallObject: bool, leaveOk: bool): (r: EndResult)
    ensures r.endRequest.Some? <==> Truthy(s.conversationId)
    ensures r.endRequest.Some? ==> r.endRequest == s.conversationId
    ensures r.leavesCall == hasCallObject
    ensures hasCallObject && !leaveOk ==> r.next == s
    ensures !hasCallObject || leaveOk ==> !r.next.isConnected && r.next.conversationUrl.None? && r.next.showFeedback
    ensures r.next.conversationId == s.conversationId && r.next.messages == s.messages
    ensures r.next.(isConnected := s.isConnected, conversationUrl := s.conversationUrl, showFeedback := s.showFeedback) == s
  {
    var request := if Truthy(s.conversationId) then s.conversationId else None;
    if hasCallObject && !leaveOk then EndResult(s, request, true)
    else EndResult(s.(isConnected := false, conversationUrl := None, showFeedback := true), request, hasCallObject)
  }

  /** Leaving the call fires `left-meeting`, whose listener runs the same
      handler again: a second end request for the retained id goes out, and
      the box's state does not change a second time unless the first leave
      rejected and the second resolved. */
  lemma LeftMeetingRepeatsEnd(s: VideoBox, hasCallObject: bool, leaveOk1: bool, leaveOk2: bool)
    ensures var first := HandleEndCall(s, hasCallObject, leaveOk1);
      var second := HandleEndCall(first.next, hasCallObject, leaveOk2);
      && second.endRequest == first.endRequest
      && (!hasCallObject || leaveOk1 || !leaveOk2 ==> second.next == first.next)
  {
  }

  /** The microphone button: with a call object and a local participant it
      asks for the opposite of the participant's current audio state;
      `localAudio` is that state, `None` when there is no local participant.
      The box keeps no audio flag of its own, so no state changes. */
  function ToggleAudio(hasCallObject: bool, localAudio: Option<bool>): (r: Option<Daily.SdkCall>)
    ensures r.Some? <==> hasCallObject && localAudio.Some?
    ensures r.Some? ==> r.value == Daily.SetLocalAudio(!localAudio.value)
  {
    if hasCallObject && localAudio.Some? then Some(Daily.SetLocalAudio(!localAudio.value)) else None
  }

  function VerdictText(v: FeedbackDialog.Verdict): string {
    match v
    case Yes => "yes"
    case No => "no"
  }

  /** The reply to `POST /api/send-feedback`; `error` is the `error` key of
      a non-ok reply's JSON body. */
  datatype FeedbackReply = FeedbackReplied(ok: bool, error: Option<string>) | FeedbackThrew(reason: string)

  datatype SubmitResult = SubmitResult(sent: Option<SendFeedback.FeedbackRequest>, rejection: Option<string>)

  const NoConversationIdError: string := "No conversation ID available"
  const SubmitFailedError: string := "Failed to submit feedback"

  /** The body `handleFeedbackSubmit` posts. */
  function FeedbackBody(id: string, verdict: FeedbackDialog.Verdict, comment: Option<string>, email: Option<string>,
                        messages: seq<ChatMessage>): SendFeedback.FeedbackRequest
  {
    SendFeedback.FeedbackRequest(
      Some(VerdictText(verdict)), Some(id), Some(OrElse(comment, "")), Some(OrElse(email, "")),
      Some(GenerateChatTranscript(messages)))
  }

  /** `handleFeedbackSubmit`: without a conversation id it rejects before any
      request; otherwise it posts the verdict, the id, the comment and email
      defaulting to `''` and the transcript of the current messages, and
      resolves iff the reply is ok. */
  function HandleFeedbackSubmit(s: VideoBox, verdict: FeedbackDialog.Verdict, comment: Option<string>,
                                email: Option<string>, reply: FeedbackReply): (r: SubmitResult)
    ensures !Truthy(s.conversationId) ==> r == SubmitResult(None, Some(NoConversationIdError))
    ensures Truthy(s.conversationId) ==> r.sent.Some?
    ensures r.sent.Some? ==>
      && r.sent.value.issueResolved == Some(VerdictText(verdict))
      && r.sent.value.conversationId == s.conversationId
      && r.sent.value.feedback == Some(OrElse(comment, ""))
      && r.sent.value.userAccount == Some(OrElse(email, ""))
      && r.sent.value.chatTranscript == Some(GenerateChatTranscript(s.messages))
    ensures r.rejection.None? <==> r.sent.Some? && reply.FeedbackReplied? && reply.ok
  {
    if !Truthy(s.conversationId) then SubmitResult(None, Some(NoConversationIdError))
    else
      var body := FeedbackBody(s.conversationId.value, verdict, comment, email, s.messages);
      match reply
      case FeedbackThrew(reason) => SubmitResult(Some(body), Some(reason))
      case FeedbackReplied(ok, error) =>
        SubmitResult(Some(body), if ok then None else Some(OrElse(error, SubmitFailedError)))
  }

  /** Whatever the box sends passes the route's field validation, so the
      route never answers 400 to it. */
  lemma SubmittedBodyIsValid(s: VideoBox, verdict: FeedbackDialog.Verdict, comment: Option<string>,
                             email: Option<string>, reply: FeedbackReply)
    ensures var r := HandleFeedbackSubmit(s, verdict, comment, email, reply);
      r.sent.Some? ==> SendFeedback.HasRequiredFields(r.sent.value)
  {
  }

  /** `handleFeedbackClose`: the dialog closes, the overlay returns and the
      conversation id is dropped. */
  function HandleFeedbackClose(s: VideoBox): (r: VideoBox)
    ensures !r.showFeedback && !r.isInChat && r.showOverlay && r.conversationId.None?
    ensures r.(showFeedback := s.showFeedback, isInChat := s.isInChat, showOverlay := s.showOverlay,
               conversationId := s.conversationId) == s
  {
    s.(showFeedback := false, isInChat := false, showOverlay := true, conversationId := None)
  }

  const UserPrefix: string := "User: "
  const AssistantPrefix: string := "Assistant: "

  /** A context line: the speaker's name, a colon and a space, then the
      text. */
  function ContextLine(byUser: bool, text: string): string {
    (if byUser then UserPrefix else AssistantPrefix) + text
  }

  /** The context line for one message: every role but `'user'` is written
      as the assistant. */
  function FormatContext(m: ChatMessage): (line: string)
    ensures line == ContextLine(m.role == UserRole, m.text)
  {
    (if m.role == UserRole then "User" else "Assistant") + ": " + m.text
  }

  /** Reads a context line back into (spoken by the user?, text); a line
      with neither prefix is not a context line. */
  function ParseContext(line: string): Option<(bool, string)> {
    if |line| >= 6 && line[..6] == UserPrefix then Some((true, line[6..]))
    else if |line| >= 11 && line[..11] == AssistantPrefix then Some((false, line[11..]))
    else None
  }

  /** Parsing accepts exactly the context lines, and reads back the side and
      text each was written from. */
  lemma ContextLineExact(line: string, byUser: bool, text: string)
    ensures ParseContext(line) == Some((byUser, text)) <==> line == ContextLine(byUser, text)
  {
    if line == ContextLine(byUser, text) {
      if byUser {
        assert line[..6] == UserPrefix && line[6..] == text;
      } else {
        assert line[..11] == AssistantPrefix && line[11..] == text;
        assert line[0] != UserPrefix[0];
      }
    }
    if ParseContext(line) == Some((byUser, text)) {
      if byUser {
        assert line == line[..6] + line[6..];
      } else {
        assert line == line[..11] + line[11..];
      }
    }
  }

  /** The context line loses nothing: the speaker side and the text can be
      read back from it. */
  lemma ContextRoundTrip(m: ChatMessage)
    ensures ParseContext(FormatContext(m)) == Some((m.role == UserRole, m.text))
  {
    ContextLineExact(FormatContext(m), m.role == UserRole, m.text);
  }

  datatype ContextMessage = ContextMessage(conversationId: string, context: string)

  /** The effect that follows every change of the messages: only the latest
      message is sent, as `User: <text>` or `Assistant: <text>`, and nothing
      is sent without messages, a conversation id or a call object. */
  function LatestContext(s: VideoBox, hasCallObject: bool): (r: Option<ContextMessage>)
    ensures r.Some? <==> |s.messages| > 0 && Truthy(s.conversationId) && hasCallObject
    ensures r.Some? ==> r.value.conversationId == s.conversationId.value
    ensures r.Some? ==>
      r.value.context == (if s.messages[|s.messages| - 1].role == UserRole then UserPrefix else AssistantPrefix)
                         + s.messages[|s.messages| - 1].text
    ensures r.Some? ==> ParseContext(r.value.context) == Some((s.messages[|s.messages| - 1].role == UserRole,
                                                               s.messages[|s.messages| - 1].text))
  {
    if |s.messages| > 0 && Truthy(s.conversationId) && hasCallObject then
      ContextRoundTrip(s.messages[|s.messages| - 1]);
      Some(ContextMessage(s.conversationId.value, FormatContext(s.messages[|s.messages| - 1])))
    else None
  }

  /** The message an utterance becomes. */
  function UtteranceMessage(e: Messages.UtteranceEvent, id: string, now: Instant): ChatMessage
    requires IsWellFormed(e)
  {
    ChatMessage(id, e.properties.value.role.value, e.properties.value.speech.value, now, e.properties.value.visualContext)
  }

  /** Two utterances, one per role, heard on a cleared log give a transcript
      holding exactly those two messages. */
  lemma TwoUtterancesTranscript(s: VideoBox, u: Messages.UtteranceEvent, a: Messages.UtteranceEvent,
                                id1: string, id2: string, t1: Instant, t2: Instant)
    requires s.messages == []
    requires IsConversationEvent(Some(u), UtteranceEvent) && IsWellFormed(u)
    requires IsConversationEvent(Some(a), UtteranceEvent) && IsWellFormed(a)
    requires u.properties.value.role == Some(UserRole) && a.properties.value.role == Some(ReplicaRole)
    ensures var heard := HandleAppMessage(HandleAppMessage(s, Some(u), id1, t1), Some(a), id2, t2);
      GenerateChatTranscript(heard.messages)
        == ChatTranscript([ToEntry(UtteranceMessage(u, id1, t1))], [ToEntry(UtteranceMessage(a, id2, t2))])
  {
    var m1 := UtteranceMessage(u, id1, t1);
    var m2 := UtteranceMessage(a, id2, t2);
    var heard := HandleAppMessage(HandleAppMessage(s, Some(u), id1, t1), Some(a), id2, t2);
    assert heard.messages == [m1] + [m2];
    EntriesOfAppend([m1], m2, UserRole);
    EntriesOfAppend([m1], m2, ReplicaRole);
    EntriesOfAppend([], m1, UserRole);
    EntriesOfAppend([], m1, ReplicaRole);
  }

  /** One session end to end: a created conversation (id `x`, URL `y`), the
      joined event, one user and one replica utterance, the end of the call
      and a feedback submission whose reply is ok. The call is joined at `y`,
      the end request names `x`, the box disconnects and shows the dialog iff
      the leave resolves, the feedback carries exactly the two utterances in
      order, the submission resolves, and closing the dialog returns to the
      start screen without an id. */
  lemma SessionEndToEnd(s: VideoBox, x: string, y: string, u: Messages.UtteranceEvent,
                        a: Messages.UtteranceEvent, id1: string, id2: string, t1: Instant, t2: Instant,
                        leaveOk: bool)
    requires x != "" && y != ""
    requires IsConversationEvent(Some(u), UtteranceEvent) && IsWellFormed(u)
    requires IsConversationEvent(Some(a), UtteranceEvent) && IsWellFormed(a)
    requires u.properties.value.role == Some(UserRole) && a.properties.value.role == Some(ReplicaRole)
    ensures
      var started := HandleStartConversation(s, Created(Some(x), Some(y)), true);
      var heard := HandleAppMessage(HandleAppMessage(HandleJoinedMeeting(started.next), Some(u), id1, t1), Some(a), id2, t2);
      var ended := HandleEndCall(heard, true, leaveOk);
      var submitted := HandleFeedbackSubmit(ended.next, FeedbackDialog.Yes, None, None, FeedbackReplied(true, None));
      && started.joinUrl == Some(y)
      && ended.endRequest == Some(x) && ended.leavesCall
      && (ended.next.isConnected <==> !leaveOk)
      && (leaveOk ==> ended.next.showFeedback)
      && submitted.rejection.None?
      && submitted.sent.Some?
      && submitted.sent.value.chatTranscript
           == Some(ChatTranscript([ToEntry(UtteranceMessage(u, id1, t1))], [ToEntry(UtteranceMessage(a, id2, t2))]))
      && HandleFeedbackClose(ended.next).conversationId.None?
  {
    var started := HandleStartConversation(s, Created(Some(x), Some(y)), true);
    var joined := HandleJoinedMeeting(started.next);
    TwoUtterancesTranscript(joined, u, a, id1, id2, t1, t2);
  }
}
