/** The decoded chat record and the filter that decides whether a decoded
    chat goes on to dispatch. */
module Messages {

  datatype Option<T> = None | Some(value: T)

  /** A chat as the protobuf reader returns it. `history` is the
      truthiness of channelData.details.__history__, `displayName` is
      channelData.displayName, `recipientId` is recipient.id, and
      `serviceURL` is the property of that name that processActivity
      creates or overwrites (not botbuilder's `serviceUrl`, which the
      adapter never touches); the other fields travel along unread. */
  datatype Chat = Chat(
    text: string,
    displayName: string,
    history: bool,
    recipientId: string,
    serviceURL: string,
    conversationId: string)

  /** A live chat written by someone other than the bot. */
  predicate Accepts(c: Chat, botName: string)
  {
    !c.history && c.displayName != botName
  }

  /** _messageToActivity's guard: a missing chat, a history replay or the
      bot's own message is dropped; any other chat is passed on as it is. */
  function FilterChat(decoded: Option<Chat>, botName: string): (r: Option<Chat>)
    ensures r.Some? <==> decoded.Some? && Accepts(decoded.value, botName)
    ensures r.Some? ==> r == decoded
  {
    if decoded.None? || decoded.value.history || decoded.value.displayName == botName then None
    else decoded
  }

  /** A message sent under the bot's own name is dropped. */
  lemma SelfMessageDropped(c: Chat, botName: string)
    requires c.displayName == botName
    ensures FilterChat(Some(c), botName) == None
  {
  }

  /** A history replay is dropped whoever wrote it. */
  lemma HistoryDropped(c: Chat, botName: string)
    requires c.history
    ensures FilterChat(Some(c), botName) == None
  {
  }
}
