/** The chat entities the screen components share (the `Message` and `Chat` records of the chat store). */
module ChatModel {
  import opened Wrappers

  /** One message of a conversation. */
  datatype Message = Message(
    id: string,
    content: string,
    senderId: string,
    receiverId: string,
    timestamp: string,
    isEncrypted: bool,
    isRead: bool,
    attachments: Option<seq<string>>)

  /** A one-to-one conversation; `isOnline` / `isViewing` are optional seed values. */
  datatype Chat = Chat(
    id: string,
    participantId: string,
    participantName: string,
    participantUsername: string,
    unreadCount: int,
    isOnline: Option<bool>,
    isViewing: Option<bool>,
    messages: seq<Message>)

  /** A presence entry of the chat store's `userPresence` map. */
  datatype Presence = Presence(isOnline: bool, isViewing: bool)

  /** `flag || false` on an optional boolean. */
  function Flag(b: Option<bool>): (r: bool)
    ensures r <==> b == Some(true)
  {
    b.GetOr(false)
  }

  /** No two messages of `msgs` share an id. */
  predicate DistinctIds(msgs: seq<Message>) {
    forall i, j :: 0 <= i < j < |msgs| ==> msgs[i].id != msgs[j].id
  }
}
