# Tavus conversational video example: a Dafny model of its session logic

This project models the sequential logic under the Tavus example application, a
Next.js front end around a Tavus conversational video interface (CVI) session
carried over a Daily.co call. The model covers the following:

- **Transcript and message log.** The message aggregator of `useMessages`, the
  conversation record helpers of `useConversation`, and the role partition
  `generateChatTranscript` that turns the log into the feedback transcript.
- **Video box session.** The `app-message` dispatcher, the start, joined, end
  and feedback-close transitions, the feedback submission, and the "latest
  message" context line sent back to the replica.
- **UI state machines.** The post-call feedback dialog, the three-state
  stateful button, and the typing animation of a streaming message.
- **Send-feedback route.** `POST /api/send-feedback`: field validation, the
  webhook-URL check, payload defaults and the status mapping.
- **Meeting configuration.** The form handlers and the default record.
- **Create-meeting button.** The mapping from the reply to the result card.
- **Embedded meeting.** The call-object singleton, the participant split, and
  the start, cleanup and control toggles.
- **Meeting page.** The stand-alone page's SDK event handlers and media toggles.

Every component is a set of pure functions over immutable records. Each handler
takes the component's state and returns the next state together with the
requests it issues. Those requests are fetch calls or Daily SDK calls, recorded
as `Daily.SdkCall` values.

What the outside world supplies comes in as parameters:

- the replies of `fetch`, and whether an SDK call succeeds;
- fresh ids (`crypto.randomUUID`) and the clock (`new Date()`);
- whether a call object exists;
- the handle `createCallObject` returns.

Timers (`setTimeout`, `setInterval`) become explicit events.

JavaScript's optional values are `Common.Option`. String truthiness (`x || y`,
`if (!x)`) is `Common.Truthy`: present and non-empty.

Files, one module each unless noted:

| file | module | source |
|---|---|---|
| common.dfy | `Common`, `Daily` | shared vocabulary; the SDK requests |
| transcript.dfy | `Transcript` | src/lib/utils.ts |
| messages.dfy | `Messages` | src/lib/hooks.ts (`useMessages`) |
| conversation_store.dfy | `ConversationStore` | src/lib/hooks.ts (`useConversation`), src/lib/store.ts |
| feedback_dialog.dfy | `FeedbackDialog` | src/components/ui/feedback-dialog.tsx |
| stateful_button.dfy | `StatefulButton` | src/components/ui/stateful-button.tsx |
| streaming_message.dfy | `StreamingMessage` | src/components/ui/streaming-message.tsx |
| send_feedback.dfy | `SendFeedback` | src/app/api/send-feedback/route.ts |
| video_box.dfy | `VideoBox` | src/components/video-box.tsx |
| daily_config.dfy | `DailyConfig` | src/app/components/Daily/DailyConfig.tsx, defaultConfig.ts |
| create_meeting.dfy | `CreateMeeting` | src/app/components/CreateMeetingButton.tsx |
| video_meeting.dfy | `VideoMeeting` | src/app/components/VideoMeeting.tsx |
| meeting_page.dfy | `MeetingPage` | src/app/meeting/page.tsx |

## Notes on the code

The model follows the code as written, including these behaviours:

- **No session status.** There is no `status` field with values none, creating,
  active, ending and ended. The video box keeps independent flags instead
  (`isInChat`, `isConnected`, `showFeedback`, `showOverlay`), and the model
  keeps those.
- **Id cleared on close, not on submit.** The session id is cleared when the
  feedback dialog is closed (`handleFeedbackClose`), not when feedback is
  submitted. A submission leaves the id in place.
- **Timestamp added by the route.** The feedback body posted by the video box
  carries no `timestamp`. The send-feedback route adds it when it builds the
  webhook payload.
- **Failed creation is swallowed.** A failed conversation creation is only
  logged: `handleStartConversation` catches its own errors. The stateful button
  wrapped around it therefore always passes to `success`.
- **Leaving ends the conversation twice.** Leaving the call fires
  `left-meeting`, whose listener runs `handleEndCall` again. A second end
  request goes out for the retained id (`VideoBox.LeftMeetingRepeatsEnd`).
- **A rejected leave skips the cleanup.** In `handleEndCall` the
  `await daily.leave()` is outside every `try`. When it rejects, the box
  stays connected, keeps its URL and never opens the feedback dialog
  (`VideoBox.HandleEndCall`).
- **The singleton survives cleanup.** The meeting component's call-object
  singleton is never destroyed: cleanup only leaves the call. A remount joins
  with the same object (`VideoMeeting.RemountReusesObject`).

## Model

| member | source | states |
|---|---|---|
| Common.ParseNatToString | src/app/api/send-feedback/route.ts:80 | the decimal text a template string makes of a status code reads back as that code, so the webhook failure details lose nothing |
| Transcript.ToEntry | src/lib/utils.ts:20-23 | an entry keeps the message's text and timestamp verbatim, and has a `visualContext` exactly when the message's context is a non-empty string, which it then copies |
| Transcript.Positions | src/lib/utils.ts:18-19 | the indices of the messages with a given role, strictly increasing, in bounds, each with that role and missing none |
| Transcript.GenerateChatTranscript | src/lib/utils.ts:9-35 | an empty log gives two empty lists; otherwise `user` is the filter on role `'user'` and `assistant` the filter on role `'replica'` |
| Transcript.EntriesFollowPositions | src/lib/utils.ts:18-31 | the k-th entry of a list is built from the k-th message carrying its role: exactly those messages, in their original order |
| Transcript.EntriesOfAppend | src/lib/utils.ts:18-31 | a message appended to the log appends one entry to its role's list and nothing to the other |
| Transcript.EntriesCount | src/lib/utils.ts:18-31 | each list is as long as the number of messages with its role |
| Transcript.TranscriptPartitionsLog | src/lib/utils.ts:18-31 | when every role is user or replica, each message is in exactly one list and the two lengths add up to the log's length |
| Transcript.PositionMeansRole | src/lib/utils.ts:18-19 | an index is kept by the role filter exactly when its message has that role |
| Transcript.EarlyReturnAgrees | src/lib/utils.ts:10-32 | the early return for an empty log equals what the filters give on it |
| Messages.AddMessage | src/lib/hooks.ts:50-57 | the old log is a prefix of the new one, which is one longer; the new message carries the fresh id, the current time and the draft's fields |
| Messages.AddMessageKeepsIdsDistinct | src/lib/hooks.ts:51-56 | with an id never used before, ids stay pairwise distinct and the id set grows by exactly that id |
| Messages.AddUtteranceMessage | src/lib/hooks.ts:75-84 | one message is appended iff role and speech are both non-empty, with the event's role, speech and visual context; otherwise the log is unchanged |
| Messages.ClearMessages | src/lib/hooks.ts:59-61 | the log is empty whatever it held |
| Messages.ClearedTranscriptIsEmpty | src/lib/hooks.ts:59-61 | a cleared log's transcript is two empty lists |
| Messages.UtteranceExtendsTranscript | src/lib/hooks.ts:75-84 | a well-formed utterance extends exactly its role's transcript list by its entry |
| ConversationStore.UpdateConversation | src/lib/hooks.ts:8-12 | no conversation stays none; otherwise each key present in the update takes the update's value and every other key keeps its value |
| ConversationStore.UpdateIdentityAndIdempotence | src/lib/hooks.ts:8-12 | an empty update changes nothing and applying an update twice equals applying it once |
| ConversationStore.UpdatesCompose | src/lib/hooks.ts:8-12 | two updates in a row equal one update with their right-biased union |
| ConversationStore.ClearConversation | src/lib/hooks.ts:14-16 | the conversation becomes null |
| ConversationStore.GetConversationId | src/lib/hooks.ts:19-21 | the primary id when non-empty, else the `id` fallback; no conversation gives no id |
| ConversationStore.ConversationIdAfterUpdates | src/lib/hooks.ts:8-21 | after a clear there is no id; after an update setting a non-empty primary id, that id is reported |
| FeedbackDialog.Initial | src/components/ui/feedback-dialog.tsx:18-23 | the dialog starts on the first screen, not submitting, with empty comment and email |
| FeedbackDialog.Step | src/components/ui/feedback-dialog.tsx:25-67 | disabled controls do nothing; a submit calls back with the screen's verdict and the typed text; close calls back only when not submitting; the invariant is kept |
| FeedbackDialog.RunStaysValid | src/components/ui/feedback-dialog.tsx:33-61 | in every reachable dialog a submission is in flight only from a details screen |
| FeedbackDialog.ChoiceTransitions | src/components/ui/feedback-dialog.tsx:25-31 | Yes leads to the yes-details screen and No to the no-details screen, nothing else changing |
| FeedbackDialog.BackKeepsInput | src/components/ui/feedback-dialog.tsx:160-161 | Back from a details screen returns to the first screen keeping the typed email and comment |
| FeedbackDialog.SubmitRoundTrip | src/components/ui/feedback-dialog.tsx:33-61 | a submission passes `yes` or `no` with the typed text and settles in success or error as the callback resolves or rejects, no longer submitting |
| FeedbackDialog.TryAgainReturns | src/components/ui/feedback-dialog.tsx:278 | Try Again from the error screen returns to the first screen |
| FeedbackDialog.CloseFromReachable | src/components/ui/feedback-dialog.tsx:63-67 | on every reachable success or error screen Close calls `onClose` |
| StatefulButton.Initial | src/components/ui/stateful-button.tsx:14 | the button starts idle with no timer armed |
| StatefulButton.Step | src/components/ui/stateful-button.tsx:16-36 | the handler runs only for a click when idle, after moving to loading; resolving leads to success with the reset timer armed, throwing back to idle, the timer back to idle |
| StatefulButton.RunInvariant | src/components/ui/stateful-button.tsx:16-36 | in every reachable state the timer is armed iff showing success, and handler runs exceed settlements by one exactly while loading |
| StatefulButton.ClickCycle | src/components/ui/stateful-button.tsx:19-34 | a click goes to loading, a resolution to success and the timer back to the initial button; a throw goes straight back |
| StatefulButton.Disabled | src/components/ui/stateful-button.tsx:49-50 | disabled iff not idle, unless the caller's `disabled` prop overrides |
| StatefulButton.Label | src/components/ui/stateful-button.tsx:104-171 | children when idle, the loading text (default "Loading...") when loading, the success text (default "Success!") on success |
| StatefulButton.LabelsAlongCycle | src/components/ui/stateful-button.tsx:13-50 | along a click cycle the labels run children, loading text, success text, children, and the button is disabled exactly in the middle two states |
| StatefulButton.BusyClickIgnored | src/components/ui/stateful-button.tsx:17 | a click when not idle changes nothing and does not run the handler |
| StreamingMessage.Mount | src/components/ui/streaming-message.tsx:24-26 | before the delay nothing is displayed, not started and not complete |
| StreamingMessage.OnDelay | src/components/ui/streaming-message.tsx:31-35 | the delay starts the bubble and the interval from index 0 |
| StreamingMessage.OnTick | src/components/ui/streaming-message.tsx:35-44 | a tick before the end shows one more character; the tick at the end stops the interval, completes and calls `onComplete` once more |
| StreamingMessage.AfterTicks | src/components/ui/streaming-message.tsx:31-44 | the closed form is started and always displays a prefix of the text |
| StreamingMessage.TicksMatchClosedForm | src/components/ui/streaming-message.tsx:31-44 | after k ticks the first min(k, \|text\|) characters show, and completion with one `onComplete` call comes on tick \|text\|+1 and stays |
| StreamingMessage.EdgeCases | src/components/ui/streaming-message.tsx:36-43 | before the delay nothing shows; empty text completes on the first tick with nothing displayed |
| StreamingMessage.CursorWhileTyping | src/components/ui/streaming-message.tsx:76 | the cursor shows exactly until the completing tick, and `onComplete` has run iff it is gone |
| StreamingMessage.Stream | src/components/ui/streaming-message.tsx:33-44 | the interval loop leaves a prefix of the text displayed, completes iff it ticked past the end, and calls `onComplete` at most once |
| StreamingMessage.BubbleAlignment | src/components/ui/streaming-message.tsx:55-62 | replica bubbles align to the start, every other role to the end |
| SendFeedback.BuildPayload | src/app/api/send-feedback/route.ts:34-41 | the payload copies the two required fields, defaults comment and account to empty and the transcript to two empty lists, and stamps the time |
| SendFeedback.Post | src/app/api/send-feedback/route.ts:11-102 | a payload is sent iff the fields are valid and a webhook is configured; 400 iff fields are missing; 200 iff sent and the webhook answered ok; otherwise 500; the generic internal-error body exactly when the request body does not parse or the webhook call throws |
| SendFeedback.CatchPath | src/app/api/send-feedback/route.ts:95-101 | an unparsable request body, or a throw while calling the webhook, gives 500 with "Internal server error while sending feedback" and no details |
| SendFeedback.ValidationPrecedesEverything | src/app/api/send-feedback/route.ts:16-21 | missing fields give 400 and no outbound call, whatever the webhook configuration and reply |
| SendFeedback.MissingWebhookUrl | src/app/api/send-feedback/route.ts:24-31 | valid fields without a webhook URL give 500 and no outbound call |
| SendFeedback.WebhookFailure | src/app/api/send-feedback/route.ts:69-83 | a non-ok webhook reply, after the payload was sent, gives 500 with the failure details |
| SendFeedback.FailureDetailsReadBack | src/app/api/send-feedback/route.ts:80 | the details read "Webhook returned ", the status in decimal that parses back to it, then ": " and the status text |
| SendFeedback.WebhookSuccess | src/app/api/send-feedback/route.ts:86-93 | an ok reply with a non-JSON body succeeds and reports an empty object |
| SendFeedback.IssueResolvedOnlyNeedsTruthiness | src/app/api/send-feedback/route.ts:16 | any non-empty `IssueResolved` with a non-empty id, not only yes or no, passes validation whatever the optional fields hold |
| VideoBox.Initial | src/components/video-box.tsx:41-49 | overlay shown, not in chat, not connected, no feedback, no id or URL, no messages |
| VideoBox.HandleAppMessage | src/components/video-box.tsx:127-166 | only a conversation utterance changes the messages, as the aggregator does; speaking flags change only on their own events; nothing else changes |
| VideoBox.SpeakingEvents | src/components/video-box.tsx:139-157 | each started or stopped speaking event sets its own flag and nothing else |
| VideoBox.IgnoredMessages | src/components/video-box.tsx:130-165 | missing data, system messages and unknown conversation events change nothing |
| VideoBox.HandleStartConversation | src/components/video-box.tsx:237-273 | a failed creation changes nothing; a created one stores id and URL, enters the chat, hides the overlay, clears the messages, and joins iff there is a call object and a URL |
| VideoBox.HandleJoinedMeeting | src/components/video-box.tsx:94-97 | joining sets connected and nothing else |
| VideoBox.HandleParticipantsChanged | src/components/video-box.tsx:61-72 | the box becomes connected iff it was, or it is in chat with participants; nothing else changes |
| VideoBox.HandleEndCall | src/components/video-box.tsx:277-308 | the end request goes out iff there is an id, the call is left iff there is a call object; a rejected leave skips the setters and keeps the state; otherwise disconnected, URL dropped, feedback shown; id and messages always kept |
| VideoBox.LeftMeetingRepeatsEnd | src/components/video-box.tsx:117-120 | the `left-meeting` rerun of the end handler repeats the end request, and changes no state unless the first leave rejected and the second resolved |
| VideoBox.ToggleAudio | src/components/video-box.tsx:310-314 | a request for the opposite of the local participant's audio state goes out iff there is a call object and a local participant |
| VideoBox.HandleFeedbackSubmit | src/components/video-box.tsx:321-348 | no id rejects without a request; otherwise the body carries verdict, id, comment and email defaulting to empty and the log's transcript, and resolves iff the reply is ok |
| VideoBox.SubmittedBodyIsValid | src/components/video-box.tsx:333-339 | every body the box sends passes the route's field validation |
| VideoBox.HandleFeedbackClose | src/components/video-box.tsx:350-355 | closing hides the dialog, leaves the chat, shows the overlay and drops the id, nothing else changing |
| VideoBox.ContextLineExact | src/components/video-box.tsx:229 | a line parses to (side, text) iff it is exactly `User: <text>` or `Assistant: <text>` for that side and text |
| VideoBox.ContextRoundTrip | src/components/video-box.tsx:229 | speaker side and text can be read back from a message's context line |
| VideoBox.LatestContext | src/components/video-box.tsx:201-234 | a context message goes out iff there are messages, an id and a call object; it is `User: ` or `Assistant: ` followed by the latest message's text, and parses back to its speaker and text |
| VideoBox.TwoUtterancesTranscript | src/components/video-box.tsx:130-137 | a user and a replica utterance heard on an empty log give a transcript of exactly those two entries |
| VideoBox.SessionEndToEnd | src/components/video-box.tsx:237-355 | start, join, two utterances, end, an accepted submission and close: joined at the URL, ended by id, disconnected with the dialog shown iff the leave resolves, feedback carrying the two entries, id dropped |
| DailyConfig.SetFlagFrame | src/app/components/Daily/DailyConfig.tsx:33-38 | writing one checkbox key leaves every other key, the count and the quality alone |
| DailyConfig.HandleCheckboxChange | src/app/components/Daily/DailyConfig.tsx:33-38 | the key becomes true iff the checkbox reports true (so indeterminate stores false) and every other field is unchanged |
| DailyConfig.SetFlagSame | src/app/components/Daily/DailyConfig.tsx:33-38 | writing a key its current value changes nothing |
| DailyConfig.SetFlagTwice | src/app/components/Daily/DailyConfig.tsx:33-38 | writing a key twice keeps only the second value |
| DailyConfig.CheckboxKeepsCurrent | src/app/components/Daily/DailyConfig.tsx:33-38 | reporting a checkbox's current state changes nothing |
| DailyConfig.CheckboxLastWins | src/app/components/Daily/DailyConfig.tsx:33-38 | two reports in a row for one checkbox equal the second alone |
| DailyConfig.HandleNumberChange | src/app/components/Daily/DailyConfig.tsx:40-45 | only the participant limit changes, to the value given |
| DailyConfig.HandleQualityChange | src/app/components/Daily/DailyConfig.tsx:47-52 | only the quality changes, to the value given |
| DailyConfig.DefaultsAreConservative | src/app/components/Daily/defaultConfig.ts:3-16 | every checkbox starts false, the limit at 10 inside 1..50, the quality at medium |
| DailyConfig.NumberNotClamped | src/app/components/Daily/DailyConfig.tsx:180-188 | every value outside the input's 1..50 is stored as given, with the rest of the record unchanged |
| DailyConfig.CreateButton | src/app/components/Daily/DailyConfig.tsx:195-202 | the create button is disabled and reads "Creating Meeting..." exactly while loading |
| CreateMeeting.Initial | src/app/components/CreateMeetingButton.tsx:10-11 | not loading, no result |
| CreateMeeting.Begin | src/app/components/CreateMeetingButton.tsx:15-16 | a click sets loading and clears the previous result |
| CreateMeeting.ResultOf | src/app/components/CreateMeetingButton.tsx:18-41 | ok gives success true with the conversation; non-ok leaves success unset with the server's error or "Failed to create meeting"; a throw gives success false with "Network error occurred" |
| CreateMeeting.Settle | src/app/components/CreateMeetingButton.tsx:42-44 | after every outcome loading is off and the result recorded |
| CreateMeeting.CardOf | src/app/components/CreateMeetingButton.tsx:68-162 | no card without a result; the success card iff `success` is true |
| CreateMeeting.SettledCard | src/app/components/CreateMeetingButton.tsx:14-45 | after a click the success card shows iff the server answered ok, and every error card carries a non-empty message |
| CreateMeeting.ButtonFollowsLoading | src/app/components/CreateMeetingButton.tsx:59-66 | in flight the button is disabled and relabelled and no card shows; settled it is enabled with its normal caption |
| CreateMeeting.NonOkFallback | src/app/components/CreateMeetingButton.tsx:33-35 | a non-ok reply without an error text falls back to "Failed to create meeting" with success unset |
| VideoMeeting.GetOrCreateCallObject | src/app/components/VideoMeeting.tsx:11-17 | the stored object is returned when there is one; otherwise a new one is created and stored |
| VideoMeeting.SingletonCreatesOnce | src/app/components/VideoMeeting.tsx:11-17 | from an empty slot any number of requests create exactly one object and all return it |
| VideoMeeting.StoredObjectReused | src/app/components/VideoMeeting.tsx:11-17 | with an object stored, requests create nothing and always return it |
| VideoMeeting.SplitParticipants | src/app/components/VideoMeeting.tsx:57-67 | remotes are all entries but `'local'`, with their values; the local participant is the `'local'` entry, null when absent |
| VideoMeeting.SplitLosesNothing | src/app/components/VideoMeeting.tsx:57-64 | putting the local participant back under its key gives the participant map again |
| VideoMeeting.UpdateRemoteParticipants | src/app/components/VideoMeeting.tsx:57-67 | the walk over the entries computes the specified split of the map they come from |
| VideoMeeting.Initial | src/app/components/VideoMeeting.tsx:28-37 | loading, camera and microphone on, captions and recording off, no call |
| VideoMeeting.OnParticipantsChanged | src/app/components/VideoMeeting.tsx:65-66 | the component stores the split and nothing else |
| VideoMeeting.StartVideoCall | src/app/components/VideoMeeting.tsx:39-84 | without a URL or container nothing happens; otherwise the singleton joins the URL and loading ends, with an error iff the join fails |
| VideoMeeting.Cleanup | src/app/components/VideoMeeting.tsx:86-98 | the call is left iff there is one |
| VideoMeeting.RemountReusesObject | src/app/components/VideoMeeting.tsx:39-99 | after cleanup a remount joins with the same call object that was left |
| VideoMeeting.ToggleCamera | src/app/components/VideoMeeting.tsx:132-146 | no-op without a call; else requests the opposite video state and flips the flag only on success, nothing else changing |
| VideoMeeting.ToggleMic | src/app/components/VideoMeeting.tsx:148-162 | the same for the microphone |
| VideoMeeting.ToggleCaptions | src/app/components/VideoMeeting.tsx:164-169 | with a call the captions flag flips, never with an SDK request |
| VideoMeeting.ToggleRecording | src/app/components/VideoMeeting.tsx:171-185 | stop while recording, start otherwise, flipping only on success |
| VideoMeeting.TogglesAreInvolutions | src/app/components/VideoMeeting.tsx:132-185 | two successful toggles restore the state with opposite requests; a failed toggle changes nothing |
| VideoMeeting.FirstClicks | src/app/components/VideoMeeting.tsx:34-37 | from the initial flags the first clicks turn camera and microphone off, start recording and turn captions on |
| VideoMeeting.VisibleControls | src/app/components/VideoMeeting.tsx:262-319 | only the captions toggle when closed captions are enabled, all four controls otherwise |
| MeetingPage.Initial | src/app/meeting/page.tsx:15-20 | no call, not joining, no error, not joined, audio and video on |
| MeetingPage.Mount | src/app/meeting/page.tsx:22-53 | no URL sets "No meeting URL provided" and neither creates nor joins; a URL creates the call object and joins it |
| MeetingPage.Unmount | src/app/meeting/page.tsx:56-58 | the created call object is destroyed, and nothing is destroyed without one |
| MeetingPage.OnEvent | src/app/meeting/page.tsx:33-50 | joining sets joining and clears the error; joined clears joining and sets joined; left clears only joined; error sets the message or "Failed to join meeting" and clears joining |
| MeetingPage.JoinedTracksEvents | src/app/meeting/page.tsx:38-45 | joined holds iff some joined event has no left event after it, or it held and no left event came |
| MeetingPage.EventsKeepCallAndMedia | src/app/meeting/page.tsx:33-50 | events never change the call object or the media flags |
| MeetingPage.ErrorThenRetry | src/app/meeting/page.tsx:33-50 | an error after joining stops the spinner and shows the message or its fallback; a new joining event clears it |
| MeetingPage.ToggleAudio | src/app/meeting/page.tsx:67-72 | no-op without a call; else the flag flips at once and the request asks for the new value |
| MeetingPage.ToggleVideo | src/app/meeting/page.tsx:74-79 | the same for video |
| MeetingPage.LeaveMeeting | src/app/meeting/page.tsx:61-65 | a leave request iff there is a call object |
| MeetingPage.TogglesAreInvolutions | src/app/meeting/page.tsx:67-79 | two toggles restore the page; the first clicks after mounting mute and stop video |
| MeetingPage.NoUrlIsInert | src/app/meeting/page.tsx:22-26 | without a URL every control is a no-op and no SDK request is ever made |

## Left out

- **Rendering and styling.** JSX markup, CSS classes, framer-motion animations,
  icons and images are presentation only. Where a control's label or
  enablement depends on state, that choice is modelled.
- **The Daily SDK's own behaviour.** `join`, `leave`, `destroy`,
  `updateInputSettings` and `sendAppMessage` are modelled as requests; the
  track attachment and `MediaStream` wiring of src/app/components/VideoMeeting.tsx:104-129
  are not modelled. The noise-cancellation request after joining
  (src/components/video-box.tsx:98-114) is a delayed, logged-only SDK call and
  is left out.
- **Logging-only handlers.** The `error` handler and the transcription
  handlers of src/components/video-box.tsx:122-124 and 168-198 only log.
- **The `onStartConversation` callback.** Calling it has no effect inside the
  component.
- **Time as text.** `toISOString` and `toLocaleString` are not modelled.
  Instants are opaque numbers, and the route's timestamp is a string
  parameter.
- **The create-conversation and end-conversation routes.** These thin proxies
  are not part of this model. Their replies enter as parameters.
- **Other components.** src/components/conversation.tsx (scrolling and
  fading indicators) is not part of this model. Neither are MeetingResult.tsx,
  MeetingSuccess.tsx, the clipboard copy in CreateMeetingButton.tsx, the
  layout, the pages composing these components, or the providers.
- **`cn`** (src/lib/utils.ts:5-7) is a class-name helper over libraries that
  are not shown.
- **Async interleavings.** Two handlers running at once are not modelled.
  Each `await` splits a handler into a start step and a settle step only
  where the in-between state is visible (the dialog's and the button's
  in-flight flags, the create button's loading flag). Elsewhere a handler is
  one step with its outcome as a parameter.
- **Re-running the streaming effect.** The effect re-runs when `text`,
  `delay`, `typingSpeed` or `onComplete` changes and restarts from index 0
  without clearing the displayed text. Only one run is modelled.
- **Failure details inside fetch.** A `text()` or `json()` call that throws
  inside an error branch ends in the same catch as any other throw, so every
  exception is one `Threw`/`Failed` outcome.
- `ConversationStore.UpdateConversation`: an update that sets a key
  explicitly to `undefined` is not modelled. A patch key is either present
  with a value or absent.
- `ConversationStore.Conversation`: of the interface's open-ended extra
  properties only `id` is kept.
- `DailyConfig.HandleNumberChange`: the handler is modelled for its one
  caller's key, `maxParticipants`. `NaN` from an empty input's `parseInt` is
  not modelled; the value is an integer.
- `DailyConfig.HandleCheckboxChange`: the key is one of the ten checkbox
  keys, as at every call site; the `keyof` type would also admit
  `maxParticipants` and `videoQuality`.
- `VideoBox.HandleStartConversation`: a reply whose JSON lacks
  `conversation` throws inside the `try`. It is modelled as the swallowed
  failure it is, through `CreateThrew`.
- `VideoBox.HandleEndCall`: the end request's reply is only logged, so it
  is not modelled. The leave request is issued whether or not the end
  request succeeds. A rejected leave is modelled as the state kept; the
  unhandled rejection it raises in the caller is not.
- `StreamingMessage.OnTick`: the text is counted in Unicode code points, a
  Dafny `char` each, while `text.length` and `slice` count UTF-16 code units.
  For text outside the Basic Multilingual Plane (emoji, for instance) the
  component needs one tick per code unit and can display half a surrogate
  pair; the model takes one tick per code point.
- `StreamingMessage.TicksMatchClosedForm`: completion on tick |text|+1
  counts code points; the component completes after one tick per UTF-16 code
  unit plus one.
- `StreamingMessage.AfterTicks` and `StreamingMessage.Stream`: the same
  code-point counting applies to their prefixes.
