/** The conversation record of src/lib/store.ts and the helpers of
    `useConversation` (src/lib/hooks.ts). The record held by the atom is
    passed in and returned; `None` plays the atom's `null`. */
module ConversationStore {
  import opened Common

  /** The `Conversation` interface. Of the open-ended extra properties only
      `id` is kept, because `getConversationId` reads it. */
  datatype Conversation = Conversation(
    conversationId: string,
    conversationUrl: string,
    conversationName: Option<string>,
    status: Option<string>,
    createdAt: Option<string>,
    callbackUrl: Option<string>,
    id: Option<string>)

  /** A `Partial<Conversation>`: `None` means the key is absent. */
  datatype ConversationPatch = ConversationPatch(
    conversationId: Option<string>,
    conversationUrl: Option<string>,
    conversationName: Option<string>,
    status: Option<string>,
    createdAt: Option<string>,
    callbackUrl: Option<string>,
    id: Option<string>)

  const NoChanges: ConversationPatch := ConversationPatch(None, None, None, None, None, None, None)

  /** One key of `{...old, ...updates}`: the update wins when it has the key. */
  function Pick<T>(current: T, update: Option<T>): T {
    if update.Some? then update.value else current
  }

  /** One optional key of the spread. */
  function PickOptional<T>(current: Option<T>, update: Option<T>): Option<T> {
    if update.Some? then update else current
  }

  /** `{...c, ...p}` on a present record. */
  function Merge(c: Conversation, p: ConversationPatch): Conversation {
    Conversation(
      Pick(c.conversationId, p.conversationId),
      Pick(c.conversationUrl, p.conversationUrl),
      PickOptional(c.conversationName, p.conversationName),
      PickOptional(c.status, p.status),
      PickOptional(c.createdAt, p.createdAt),
      PickOptional(c.callbackUrl, p.callbackUrl),
      PickOptional(c.id, p.id))
  }

  /** `updateConversation`: does nothing without a conversation; otherwise
      every key present in the patch takes the patch's value and every other
      key keeps its old value. */
  function UpdateConversation(c: Option<Conversation>, p: ConversationPatch): (r: Option<Conversation>)
    ensures c.None? ==> r.None?
    ensures c.Some? ==> r.Some?
    ensures c.Some? ==>
      && r.value.conversationId == (if p.conversationId.Some? then p.conversationId.value else c.value.conversationId)
      && r.value.conversationUrl == (if p.conversationUrl.Some? then p.conversationUrl.value else c.value.conversationUrl)
      && (p.conversationName.None? ==> r.value.conversationName == c.value.conversationName)
      && (p.conversationName.Some? ==> r.value.conversationName == p.conversationName)
      && (p.status.None? ==> r.value.status == c.value.status)
      && (p.status.Some? ==> r.value.status == p.status)
      && (p.createdAt.None? ==> r.value.createdAt == c.value.createdAt)
      && (p.createdAt.Some? ==> r.value.createdAt == p.createdAt)
      && (p.callbackUrl.None? ==> r.value.callbackUrl == c.value.callbackUrl)
      && (p.callbackUrl.Some? ==> r.value.callbackUrl == p.callbackUrl)
      && (p.id.None? ==> r.value.id == c.value.id)
      && (p.id.Some? ==> r.value.id == p.id)
  {
    if c.Some? then Some(Merge(c.value, p)) else None
  }

  /** Right-biased union of two patches: keys of `q` win over keys of `p`. */
  function Combine(p: ConversationPatch, q: ConversationPatch): ConversationPatch {
    ConversationPatch(
      PickOptional(p.conversationId, q.conversationId),
      PickOptional(p.conversationUrl, q.conversationUrl),
      PickOptional(p.conversationName, q.conversationName),
      PickOptional(p.status, q.status),
      PickOptional(p.createdAt, q.createdAt),
      PickOptional(p.callbackUrl, q.callbackUrl),
      PickOptional(p.id, q.id))
  }

  /** An empty patch changes nothing, and applying a patch twice is the same
      as applying it once. */
  lemma UpdateIdentityAndIdempotence(c: Option<Conversation>, p: ConversationPatch)
    ensures UpdateConversation(c, NoChanges) == c
    ensures UpdateConversation(UpdateConversation(c, p), p) == UpdateConversation(c, p)
  {
  }

  /** Two successive updates are one update with the combined patch. */
  lemma UpdatesCompose(c: Option<Conversation>, p: ConversationPatch, q: ConversationPatch)
    ensures UpdateConversation(UpdateConversation(c, p), q) == UpdateConversation(c, Combine(p, q))
  {
  }

  /** `clearConversation`. */
  function ClearConversation(): (r: Option<Conversation>)
    ensures r.None?
  {
    None
  }

  /** `conversation?.conversation_id || conversation?.id`: the primary id when
      it is a non-empty string, otherwise the `id` fallback as it is (which
      may itself be absent or empty). */
  function GetConversationId(c: Option<Conversation>): (r: Option<string>)
    ensures c.None? ==> r.None?
    ensures c.Some? && c.value.conversationId != "" ==> r == Some(c.value.conversationId)
    ensures c.Some? && c.value.conversationId == "" ==> r == c.value.id
    ensures Truthy(r) ==> c.Some? && (r.value == c.value.conversationId || r == c.value.id)
  {
    match c
    case None => None
    case Some(conv) => if conv.conversationId != "" then Some(conv.conversationId) else conv.id
  }

  /** After a clear there is no id; after an update that sets a non-empty
      primary id, that id is what `getConversationId` reports. */
  lemma ConversationIdAfterUpdates(c: Option<Conversation>, p: ConversationPatch)
    ensures GetConversationId(ClearConversation()) == None
    ensures c.Some? && p.conversationId.Some? && p.conversationId.value != "" ==>
      GetConversationId(UpdateConversation(c, p)) == p.conversationId
    ensures c.None? ==> GetConversationId(UpdateConversation(c, p)) == None
  {
  }
}
