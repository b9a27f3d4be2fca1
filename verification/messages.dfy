/** The message aggregator of `useMessages` (src/lib/hooks.ts): an
    append-only log fed by utterance events, cleared when a new conversation
    starts. The log is passed in and returned instead of living in an atom;
    `crypto.randomUUID()` and `new Date()` become the `freshId` and `now`
    arguments. */
module Messages {
  import opened Common
  import opened Transcript

  /** What a caller hands to `addMessage`: a message without id and timestamp. */
  datatype MessageDraft = MessageDraft(role: string, text: string, visualContext: Option<string>)

  datatype UtteranceProperties = UtteranceProperties(
    role: Option<string>,
    speech: Option<string>,
    visualContext: Option<string>)

  /** The `data` of a Tavus `app-message`. Absent `message_type` or
      `event_type` are modelled by strings that match no case. */
  datatype UtteranceEvent = UtteranceEvent(
    messageType: string,
    eventType: string,
    conversationId: string,
    properties: Option<UtteranceProperties>)

  function Ids(log: seq<ChatMessage>): set<string> {
    set i | 0 <= i < |log| :: log[i].id
  }

  predicate IdsDistinct(log: seq<ChatMessage>) {
    forall i, j :: 0 <= i < j < |log| ==> log[i].id != log[j].id
  }

  /** `addMessage`: appends the draft with a new id and the current time. */
  function AddMessage(log: seq<ChatMessage>, draft: MessageDraft, freshId: string, now: Instant): (r: seq<ChatMessage>)
    ensures |r| == |log| + 1
    ensures r[..|log|] == log
    ensures r[|log|].id == freshId && r[|log|].timestamp == now
    ensures r[|log|].role == draft.role && r[|log|].text == draft.text
    ensures r[|log|].visualContext == draft.visualContext
  {
    log + [ChatMessage(freshId, draft.role, draft.text, now, draft.visualContext)]
  }

  /** With a supplier of ids never handed out before, ids stay pairwise
      distinct as the log grows. */
  lemma AddMessageKeepsIdsDistinct(log: seq<ChatMessage>, draft: MessageDraft, freshId: string, now: Instant)
    requires IdsDistinct(log)
    requires freshId !in Ids(log)
    ensures IdsDistinct(AddMessage(log, draft, freshId, now))
    ensures Ids(AddMessage(log, draft, freshId, now)) == Ids(log) + {freshId}
  {
    var r := AddMessage(log, draft, freshId, now);
    forall i, j | 0 <= i < j < |r|
      ensures r[i].id != r[j].id
    {
      if j == |log| {
        assert r[i].id == log[i].id;
        assert log[i].id in Ids(log);
      }
    }
    forall x | x in Ids(r)
      ensures x in Ids(log) + {freshId}
    {
      var i :| 0 <= i < |r| && r[i].id == x;
      if i < |log| {
        assert log[i].id == x;
      }
    }
    forall x | x in Ids(log) + {freshId}
      ensures x in Ids(r)
    {
      if x == freshId {
        assert r[|log|].id == x;
      } else {
        var i :| 0 <= i < |log| && log[i].id == x;
        assert r[i].id == x;
      }
    }
  }

  /** `properties?.role && properties?.speech`: both present and non-empty. */
  predicate IsWellFormed(e: UtteranceEvent) {
    e.properties.Some? && Truthy(e.properties.value.role) && Truthy(e.properties.value.speech)
  }

  /** `addUtteranceMessage`: a well-formed utterance becomes one new message
      with the event's role, speech and visual context; anything else,
      including empty speech, is dropped silently. */
  function AddUtteranceMessage(log: seq<ChatMessage>, e: UtteranceEvent, freshId: string, now: Instant): (r: seq<ChatMessage>)
    ensures |r| == |log| + 1 <==> IsWellFormed(e)
    ensures !IsWellFormed(e) ==> r == log
    ensures IsWellFormed(e) ==>
      && r[..|log|] == log
      && r[|log|] == ChatMessage(freshId, e.properties.value.role.value, e.properties.value.speech.value,
                                 now, e.properties.value.visualContext)
  {
    if IsWellFormed(e) then
      var p := e.properties.value;
      AddMessage(log, MessageDraft(p.role.value, p.speech.value, p.visualContext), freshId, now)
    else
      log
  }

  /** `clearMessages`: whatever was logged before is gone. */
  function ClearMessages(log: seq<ChatMessage>): (r: seq<ChatMessage>)
    ensures |r| == 0
  {
    []
  }

  /** After a clear the transcript is `{user: [], assistant: []}`. */
  lemma ClearedTranscriptIsEmpty(log: seq<ChatMessage>)
    ensures GenerateChatTranscript(ClearMessages(log)) == EmptyTranscript
  {
  }

  /** Ingesting a well-formed utterance extends exactly the transcript list of
      its role by the new entry and leaves the other list alone. */
  lemma UtteranceExtendsTranscript(log: seq<ChatMessage>, e: UtteranceEvent, freshId: string, now: Instant, role: string)
    requires IsWellFormed(e)
    ensures var m := ChatMessage(freshId, e.properties.value.role.value, e.properties.value.speech.value,
                                 now, e.properties.value.visualContext);
      EntriesWithRole(AddUtteranceMessage(log, e, freshId, now), role)
        == EntriesWithRole(log, role) + (if m.role == role then [ToEntry(m)] else [])
  {
    var m := ChatMessage(freshId, e.properties.value.role.value, e.properties.value.speech.value,
                         now, e.properties.value.visualContext);
    assert AddUtteranceMessage(log, e, freshId, now) == log + [m];
    EntriesOfAppend(log, m, role);
  }
}
