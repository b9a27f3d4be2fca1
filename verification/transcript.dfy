/** The chat message record and the transcript built from a message log for
    feedback reporting (src/lib/utils.ts, `generateChatTranscript`). */
module Transcript {
  import opened Common

  /** One aggregated utterance. `role` is a plain string because nothing at
      run time restricts it to `'user' | 'replica'`. */
  datatype ChatMessage = ChatMessage(
    id: string,
    role: string,
    text: string,
    timestamp: Instant,
    visualContext: Option<string>)

  /** One transcript line: the message without its id and role. The
      `visualContext` key is present only when the message's context was
      truthy. */
  datatype Entry = Entry(text: string, timestamp: Instant, visualContext: Option<string>)

  datatype ChatTranscript = ChatTranscript(user: seq<Entry>, assistant: seq<Entry>)

  const EmptyTranscript: ChatTranscript := ChatTranscript([], [])

  /** The object literal built for each kept message; the spread
      `...(visualContext && {visualContext})` adds the key only when the
      context is a non-empty string. */
  function ToEntry(m: ChatMessage): (e: Entry)
    ensures e.text == m.text && e.timestamp == m.timestamp
    ensures e.visualContext.Some? <==> Truthy(m.visualContext)
    ensures e.visualContext.Some? ==> e.visualContext == m.visualContext
  {
    Entry(m.text, m.timestamp, if Truthy(m.visualContext) then m.visualContext else None)
  }

  /** `messages.filter(m => m.role === role).map(ToEntry)`. */
  function EntriesWithRole(messages: seq<ChatMessage>, role: string): (r: seq<Entry>)
    ensures |r| <= |messages|
    decreases |messages|
  {
    if |messages| == 0 then []
    else
      var last := messages[|messages| - 1];
      EntriesWithRole(messages[..|messages| - 1], role) + (if last.role == role then [ToEntry(last)] else [])
  }

  /** The positions of the messages whose role is `role`, in increasing
      order: an independent description of which messages a filter keeps. */
  function Positions(messages: seq<ChatMessage>, role: string): (idx: seq<nat>)
    ensures forall k :: 0 <= k < |idx| ==> idx[k] < |messages| && messages[idx[k]].role == role
    ensures forall k, l :: 0 <= k < l < |idx| ==> idx[k] < idx[l]
    ensures forall i :: 0 <= i < |messages| && messages[i].role == role ==> i in idx
    decreases |messages|
  {
    if |messages| == 0 then []
    else
      var n := |messages| - 1;
      Positions(messages[..n], role) + (if messages[n].role == role then [n] else [])
  }

  function GenerateChatTranscript(messages: seq<ChatMessage>): (t: ChatTranscript)
    ensures messages == [] ==> t == EmptyTranscript
    ensures t.user == EntriesWithRole(messages, UserRole)
    ensures t.assistant == EntriesWithRole(messages, ReplicaRole)
  {
    if |messages| == 0 then
      ChatTranscript([], [])
    else
      ChatTranscript(EntriesWithRole(messages, UserRole), EntriesWithRole(messages, ReplicaRole))
  }

  /** The filtered list is exactly the messages with the role, in their
      original order: its k-th entry is built from the k-th matching message. */
  lemma {:induction false} EntriesFollowPositions(messages: seq<ChatMessage>, role: string)
    ensures |EntriesWithRole(messages, role)| == |Positions(messages, role)|
    ensures forall k :: 0 <= k < |Positions(messages, role)| ==>
      EntriesWithRole(messages, role)[k] == ToEntry(messages[Positions(messages, role)[k]])
    decreases |messages|
  {
    if |messages| > 0 {
      var n := |messages| - 1;
      var init := messages[..n];
      EntriesFollowPositions(init, role);
      var p := Positions(init, role);
      forall k | 0 <= k < |p|
        ensures messages[p[k]] == init[p[k]]
      {
      }
    }
  }

  /** Appending one message to the log appends at most one entry to each
      list: the transcript of a growing log grows at its end only. */
  lemma EntriesOfAppend(messages: seq<ChatMessage>, m: ChatMessage, role: string)
    ensures EntriesWithRole(messages + [m], role)
      == EntriesWithRole(messages, role) + (if m.role == role then [ToEntry(m)] else [])
  {
    assert (messages + [m])[..|messages|] == messages;
  }

  /** `role` counts of a log. */
  function CountRole(messages: seq<ChatMessage>, role: string): nat
    decreases |messages|
  {
    if |messages| == 0 then 0
    else CountRole(messages[..|messages| - 1], role) + (if messages[|messages| - 1].role == role then 1 else 0)
  }

  /** Each list is as long as the number of messages carrying its role. */
  lemma {:induction false} EntriesCount(messages: seq<ChatMessage>, role: string)
    ensures |EntriesWithRole(messages, role)| == CountRole(messages, role)
    decreases |messages|
  {
    if |messages| > 0 {
      EntriesCount(messages[..|messages| - 1], role);
    }
  }

  /** When every role is `'user'` or `'replica'`, the transcript is a
      partition: each message lands in exactly one of the two lists, so the
      two lengths add up to the length of the log. */
  lemma {:induction false} TranscriptPartitionsLog(messages: seq<ChatMessage>)
    requires forall i :: 0 <= i < |messages| ==> messages[i].role == UserRole || messages[i].role == ReplicaRole
    ensures var t := GenerateChatTranscript(messages);
      |t.user| + |t.assistant| == |messages|
    ensures forall i :: 0 <= i < |messages| ==>
      (i in Positions(messages, UserRole) <==> i !in Positions(messages, ReplicaRole))
    decreases |messages|
  {
    if |messages| > 0 {
      var init := messages[..|messages| - 1];
      TranscriptPartitionsLog(init);
      assert GenerateChatTranscript(messages).user == EntriesWithRole(init, UserRole) + (if messages[|messages| - 1].role == UserRole then [ToEntry(messages[|messages| - 1])] else []);
    }
    forall i | 0 <= i < |messages|
      ensures i in Positions(messages, UserRole) <==> i !in Positions(messages, ReplicaRole)
    {
      PositionMeansRole(messages, UserRole, i);
      PositionMeansRole(messages, ReplicaRole, i);
    }
  }

  /** An index is a position of `role` exactly when its message has `role`. */
  lemma PositionMeansRole(messages: seq<ChatMessage>, role: string, i: nat)
    requires i < |messages|
    ensures i in Positions(messages, role) <==> messages[i].role == role
  {
    var p := Positions(messages, role);
    if i in p {
      var k :| 0 <= k < |p| && p[k] == i;
    }
  }

  /** Both branches of `generateChatTranscript` agree: the early return for an
      empty log is what filtering an empty log gives, so the function is one
      total partition of any log. */
  lemma EarlyReturnAgrees()
    ensures GenerateChatTranscript([]) == ChatTranscript(EntriesWithRole([], UserRole), EntriesWithRole([], ReplicaRole))
    ensures GenerateChatTranscript([]) == EmptyTranscript
  {
  }
}
