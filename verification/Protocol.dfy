/** The events the server pushes to its clients. */
module Protocol {
  import opened Base

  datatype PresenceStatus = Online | Offline

  datatype MessagePayload = MessagePayload(
    id: Id, scopeId: Id, authorId: Id, content: string, createdAt: string, editedAt: Option<string>)

  datatype ServerEvent =
    | Ready(userId: Id)
    | HeartbeatAck(ts: int)
    | ChannelSubscribeAck(channelId: Id)
    | ThreadSubscribeAck(threadId: Id)
    | PresenceUpdate(userId: Id, status: PresenceStatus)
    | MessageCreate(channelId: Id, message: MessagePayload)
    | MessageUpdate(channelId: Id, message: MessagePayload)
    | MessageDelete(channelId: Id, messageId: Id, deletedAt: string)
    | ThreadMessageCreate(threadId: Id, message: MessagePayload)
    | ThreadMessageUpdate(threadId: Id, message: MessagePayload)
    | ThreadMessageDelete(threadId: Id, messageId: Id, deletedAt: string)
    | ThreadRequestReceived(threadId: Id, requesterUserId: Id, receiverUserId: Id)
    | ThreadAccepted(threadId: Id, acceptedByUserId: Id, requesterUserId: Id, receiverUserId: Id)
    | Typing(channelId: Id, userId: Id)
    | ThreadTyping(threadId: Id, userId: Id)
    | Error(code: string, text: string)
}
