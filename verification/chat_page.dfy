/**
 * The chat screen of app/chat/page.tsx: the conversation list, the open conversation,
 * the global unlocked-message id, the presence read-out and the viewing signals its
 * effect emits whenever the open conversation object changes.
 */
module ChatPage {
  import opened Wrappers
  import opened Text
  import opened Files
  import opened ChatModel
  import opened ChatMessage
  import opened ChatSidebar

  /** The signals the viewing effect hands to the socket hook. */
  datatype ViewingSignal = Viewing(chatId: string) | NotViewing(chatId: string)

  function Msg(id: string, content: string, senderId: string, receiverId: string, timestamp: string, isRead: bool): Message {
    Message(id, content, senderId, receiverId, timestamp, true, isRead, None)
  }

  /** The seed conversations the screen starts from. */
  function MockChats(): seq<Chat> {
    [ Chat("1", "user1", "Alice Johnson", "alice", 2, Some(true), Some(true),
        [ Msg("m1", "Hey, how are you?", "user1", "me", "10:30 AM", true),
          Msg("m2", "I'm good, thanks! How about you?", "me", "user1", "10:31 AM", true),
          Msg("m3", "Did you get the documents I sent?", "user1", "me", "10:32 AM", false),
          Msg("m4", "Yes, reviewing them now!", "me", "user1", "10:33 AM", true),
          Msg("m5", "Great, let me know your thoughts.", "user1", "me", "10:34 AM", false) ]),
      Chat("2", "user2", "Bob Smith", "bobsmith", 0, Some(true), Some(false),
        [ Msg("m6", "Meeting at 3pm tomorrow?", "user2", "me", "9:15 AM", true),
          Msg("m7", "Sure, works for me!", "me", "user2", "9:20 AM", true) ]),
      Chat("3", "user3", "Carol Davis", "carol_d", 5, Some(false), Some(false),
        [ Msg("m8", "Check out this encrypted file", "user3", "me", "Yesterday", false) ]) ]
  }

  /** Every seed conversation has distinct message ids, and no two seed conversations share an id. */
  lemma MockChatsWellFormed()
    ensures forall k :: 0 <= k < |MockChats()| ==> DistinctIds(MockChats()[k].messages)
    ensures forall k, l :: 0 <= k < l < |MockChats()| ==> MockChats()[k].id != MockChats()[l].id
  {
  }

  /** The message `handleSendMessage` builds; `now` stands for `Date.now()`, `time` for the formatted clock. */
  function NewMessage(active: Chat, content: string, attachments: Option<seq<File>>, now: nat, time: string,
                      mint: File -> string): (m: Message)
    ensures m.id == "m" + Decimal(now) && m.content == content && m.timestamp == time
    ensures m.senderId == "me" && m.receiverId == active.participantId
    ensures m.isEncrypted && !m.isRead
    ensures attachments.None? <==> m.attachments.None?
    ensures attachments.Some? ==>
      |m.attachments.value| == |attachments.value|
      && forall i :: 0 <= i < |attachments.value| ==> m.attachments.value[i] == mint(attachments.value[i])
  {
    var urls := if attachments.Some? then Some(ObjectUrls(attachments.value, mint)) else None;
    Message("m" + Decimal(now), content, "me", active.participantId, time, true, false, urls)
  }

  /** Messages sent at different milliseconds get different ids. */
  lemma {:induction false} NewMessageIdsDiffer(active: Chat, c1: string, c2: string, a1: Option<seq<File>>, a2: Option<seq<File>>,
                                               n1: nat, n2: nat, t1: string, t2: string, mint: File -> string)
    requires n1 != n2
    ensures NewMessage(active, c1, a1, n1, t1, mint).id != NewMessage(active, c2, a2, n2, t2, mint).id
  {
    var d1, d2 := Decimal(n1), Decimal(n2);
    if "m" + d1 == "m" + d2 {
      assert d1 == ("m" + d1)[1..] == ("m" + d2)[1..] == d2;
      DecimalInjective(n1, n2);
    }
  }

  /** `chats.map(chat => chat.id === id ? { ...chat, messages: [...chat.messages, m] } : chat)`. */
  function AppendToChat(chats: seq<Chat>, id: string, m: Message): (r: seq<Chat>)
    ensures |r| == |chats|
    ensures forall i :: 0 <= i < |chats| && chats[i].id == id ==> r[i] == chats[i].(messages := chats[i].messages + [m])
    ensures forall i :: 0 <= i < |chats| && chats[i].id != id ==> r[i] == chats[i]
  {
    if chats == [] then []
    else
      var head := if chats[0].id == id then chats[0].(messages := chats[0].messages + [m]) else chats[0];
      [head] + AppendToChat(chats[1..], id, m)
  }

  /**
   * The unread badges of the seed list: the first and third conversations show one, the
   * second does not; sending a message never clears or adds a badge, since nothing resets
   * `unreadCount`.
   */
  lemma UnreadBadges(chats: seq<Chat>, id: string, m: Message)
    ensures ShowUnreadBadge(MockChats()[0]) && !ShowUnreadBadge(MockChats()[1]) && ShowUnreadBadge(MockChats()[2])
    ensures forall i :: 0 <= i < |chats| ==> (ShowUnreadBadge(AppendToChat(chats, id, m)[i]) <==> ShowUnreadBadge(chats[i]))
  {
  }

  /** What the viewing effect emits when the open conversation object changes: cleanup first, then setup. */
  function EffectSignals(prev: Option<Chat>, next: Option<Chat>): (r: seq<ViewingSignal>)
    ensures prev.None? && next.None? ==> r == []
    ensures prev.Some? ==> |r| >= 1 && r[0] == NotViewing(prev.value.id)
    ensures next.Some? ==> |r| >= 1 && r[|r| - 1] == Viewing(next.value.id)
    ensures |r| == (if prev.Some? then 1 else 0) + (if next.Some? then 1 else 0)
  {
    (if prev.Some? then [NotViewing(prev.value.id)] else []) + (if next.Some? then [Viewing(next.value.id)] else [])
  }

  /** `getActiveUserPresence()`: the stored entry wins, else the seed flags, else all false. */
  function ActivePresence(activeChat: Option<Chat>, userPresence: map<string, Presence>): (p: Presence)
    ensures activeChat.None? ==> p == Presence(false, false)
    ensures activeChat.Some? && activeChat.value.participantId in userPresence ==>
      p == userPresence[activeChat.value.participantId]
    ensures activeChat.Some? && activeChat.value.participantId !in userPresence ==>
      p.isOnline == (activeChat.value.isOnline == Some(true)) && p.isViewing == (activeChat.value.isViewing == Some(true))
  {
    if activeChat.None? then Presence(false, false)
    else if activeChat.value.participantId in userPresence then userPresence[activeChat.value.participantId]
    else Presence(Flag(activeChat.value.isOnline), Flag(activeChat.value.isViewing))
  }

  /** The flags the header's status indicator gets: the presence read-out OR the seed flags. */
  function HeaderFlags(active: Chat, userPresence: map<string, Presence>): (p: Presence)
    ensures p.isOnline <==> ActivePresence(Some(active), userPresence).isOnline || active.isOnline == Some(true)
    ensures p.isViewing <==> ActivePresence(Some(active), userPresence).isViewing || active.isViewing == Some(true)
  {
    var ap := ActivePresence(Some(active), userPresence);
    Presence(ap.isOnline || Flag(active.isOnline), ap.isViewing || Flag(active.isViewing))
  }

  /** `isUnlocked={unlockedMessageId === msg.id}`. */
  predicate IsUnlocked(unlockedMessageId: Option<string>, m: Message) {
    unlockedMessageId == Some(m.id)
  }

  /** The open conversation's bubbles: each message rendered with `isUnlocked` from the global id. */
  function RenderConversation(msgs: seq<Message>, unlockedMessageId: Option<string>, lockDisplayMode: string,
                              customLockText: string): (bubbles: seq<Bubble>)
    ensures |bubbles| == |msgs|
    ensures forall i :: 0 <= i < |msgs| ==>
      bubbles[i] == Render(msgs[i], IsUnlocked(unlockedMessageId, msgs[i]), lockDisplayMode, customLockText)
  {
    if msgs == [] then []
    else [Render(msgs[0], IsUnlocked(unlockedMessageId, msgs[0]), lockDisplayMode, customLockText)]
         + RenderConversation(msgs[1..], unlockedMessageId, lockDisplayMode, customLockText)
  }

  /** With distinct ids, at most one bubble of the open conversation shows its content. */
  lemma AtMostOneRevealed(msgs: seq<Message>, unlockedMessageId: Option<string>, lockDisplayMode: string,
                          customLockText: string, i: nat, j: nat)
    requires DistinctIds(msgs) && i < |msgs| && j < |msgs| && i != j
    ensures var bubbles := RenderConversation(msgs, unlockedMessageId, lockDisplayMode, customLockText);
      !(bubbles[i].body.Revealed? && bubbles[j].body.Revealed?)
  {
    if i > j {
      assert msgs[j].id != msgs[i].id;
    }
  }

  /** The bubble of message `i` shows its content exactly when `i` carries the unlocked id. */
  lemma RevealedIffUnlocked(msgs: seq<Message>, unlockedMessageId: Option<string>, lockDisplayMode: string,
                            customLockText: string, i: nat)
    requires i < |msgs|
    ensures RenderConversation(msgs, unlockedMessageId, lockDisplayMode, customLockText)[i].body.Revealed?
            <==> unlockedMessageId == Some(msgs[i].id)
  {
  }

  /** The chat screen's state: its own `useState`s plus the chat store fields it reads and writes. */
  class ChatScreen {
    var chats: seq<Chat>
    var activeChat: Option<Chat>
    /** The index of the `chats` entry that `activeChat` is the very same object as, if any. */
    var activeSource: Option<nat>
    var unlockedMessageId: Option<string>
    var userPresence: map<string, Presence>
    var signals: seq<ViewingSignal>

    /** `activeSource` really names the entry `activeChat` is. */
    ghost predicate Valid()
      reads this
    {
      activeSource.Some? ==> activeSource.value < |chats| && activeChat == Some(chats[activeSource.value])
    }

    /** The first render: the seed list, nothing open, the store's current unlock id and presence. */
    constructor (unlocked: Option<string>, presence: map<string, Presence>)
      ensures Valid()
      ensures chats == MockChats() && activeChat.None? && activeSource.None?
      ensures unlockedMessageId == unlocked && userPresence == presence && signals == []
    {
      chats, activeChat, activeSource := MockChats(), None, None;
      unlockedMessageId, userPresence, signals := unlocked, presence, [];
    }

    /**
     * `handleSendMessage`: with an open conversation, appends the new message to it and to
     * the matching list entry, re-runs the viewing effect (the open conversation is a new
     * object) and unlocks the new message. Without one, nothing changes.
     */
    method SendMessage(content: string, attachments: Option<seq<File>>, now: nat, time: string, mint: File -> string)
      returns (sent: Option<Message>)
      requires Valid()
      modifies this
      ensures Valid()
      ensures old(activeChat).None? ==> sent.None? && unchanged(this)
      ensures old(activeChat).Some? ==>
        var before := old(activeChat).value;
        && sent == Some(NewMessage(before, content, attachments, now, time, mint))
        && activeChat == Some(before.(messages := before.messages + [sent.value]))
        && activeSource.None?
        && chats == AppendToChat(old(chats), before.id, sent.value)
        && unlockedMessageId == Some(sent.value.id)
        && signals == old(signals) + [NotViewing(before.id), Viewing(before.id)]
        && userPresence == old(userPresence)
    {
      if activeChat.None? {
        return None;
      }
      var before := activeChat.value;
      var m := NewMessage(before, content, attachments, now, time, mint);
      var next := before.(messages := before.messages + [m]);
      signals := signals + EffectSignals(activeChat, Some(next));
      activeChat, activeSource := Some(next), None;
      chats := AppendToChat(chats, before.id, m);
      unlockedMessageId := Some(m.id);
      sent := Some(m);
    }

    /** `handleMessageClick`: unlocks exactly the clicked message, replacing any other. */
    method MessageClick(messageId: string)
      requires Valid()
      modifies this
      ensures Valid()
      ensures unlockedMessageId == Some(messageId)
      ensures chats == old(chats) && activeChat == old(activeChat) && activeSource == old(activeSource)
      ensures signals == old(signals) && userPresence == old(userPresence)
    {
      unlockedMessageId := Some(messageId);
    }

    /**
     * The sidebar's `handleSelectChat` on entry `k`: opens it (a no-op for React when it
     * is already the very object shown, otherwise the viewing effect re-runs), then
     * unlocks its last message when it has one.
     */
    method SelectChat(k: nat)
      requires Valid() && k < |chats|
      modifies this
      ensures Valid()
      ensures chats == old(chats) && userPresence == old(userPresence)
      ensures old(activeSource) == Some(k) ==> activeChat == old(activeChat) && signals == old(signals)
      ensures old(activeSource) != Some(k) ==>
        activeChat == Some(chats[k]) && activeSource == Some(k)
        && signals == old(signals) + EffectSignals(old(activeChat), Some(chats[k]))
      ensures activeChat == Some(chats[k])
      ensures unlockedMessageId ==
        if |chats[k].messages| > 0 then Some(chats[k].messages[|chats[k].messages| - 1].id) else old(unlockedMessageId)
    {
      var chat := chats[k];
      if activeSource != Some(k) {
        signals := signals + EffectSignals(activeChat, Some(chat));
        activeChat, activeSource := Some(chat), Some(k);
      }
      if |chat.messages| > 0 {
        unlockedMessageId := Some(chat.messages[|chat.messages| - 1].id);
      }
    }

    /** The back button, `setActiveChat(null)`: the effect's cleanup emits not-viewing once. */
    method CloseChat()
      requires Valid()
      modifies this
      ensures Valid()
      ensures activeChat.None? && activeSource.None?
      ensures signals == old(signals) + EffectSignals(old(activeChat), None)
      ensures chats == old(chats) && unlockedMessageId == old(unlockedMessageId) && userPresence == old(userPresence)
    {
      signals := signals + EffectSignals(activeChat, None);
      activeChat, activeSource := None, None;
    }
  }
}
