/**
 * The conversation list of components/chat/chat-sidebar.tsx: the search filter, the
 * presence read-out and the per-row display rules. Selecting a row is
 * `ChatPage.ChatScreen.SelectChat`.
 */
module ChatSidebar {
  import opened Wrappers
  import opened Text
  import opened Seqs
  import opened ChatModel

  /** `name.toLowerCase().includes(query.toLowerCase()) || username.toLowerCase().includes(...)`. */
  predicate MatchesQuery(query: string, chat: Chat) {
    Contains(ToLower(chat.participantName), ToLower(query))
    || Contains(ToLower(chat.participantUsername), ToLower(query))
  }

  /** `filteredChats`: the conversations the search box lets through, in list order. */
  function FilteredChats(chats: seq<Chat>, query: string): (r: seq<Chat>)
    ensures |r| <= |chats|
  {
    Filter(chats, c => MatchesQuery(query, c))
  }

  /** A conversation is listed iff it is in the list and matches the query. */
  lemma FilteredIffMatches(chats: seq<Chat>, query: string, c: Chat)
    ensures c in FilteredChats(chats, query) <==> c in chats && MatchesQuery(query, c)
  {
    FilterMembership(chats, c => MatchesQuery(query, c), c);
  }

  /** Every listed conversation matches the query. */
  lemma FilteredAllMatch(chats: seq<Chat>, query: string)
    ensures forall i :: 0 <= i < |FilteredChats(chats, query)| ==> MatchesQuery(query, FilteredChats(chats, query)[i])
  {
    FilterAllSatisfy(chats, c => MatchesQuery(query, c));
  }

  /** The filter keeps the list's order: the result is a subsequence of the list. */
  lemma FilteredIsSubsequence(chats: seq<Chat>, query: string)
    ensures IsSubsequence(FilteredChats(chats, query), chats)
  {
    FilterIsSubsequence(chats, c => MatchesQuery(query, c));
  }

  /** An empty search box lists every conversation. */
  lemma EmptyQueryKeepsAll(chats: seq<Chat>)
    ensures FilteredChats(chats, "") == chats
  {
    forall i | 0 <= i < |chats| ensures MatchesQuery("", chats[i]) {
      ContainsEmpty(ToLower(chats[i].participantName));
    }
    FilterKeepsAll(chats, c => MatchesQuery("", c));
  }

  /** The search ignores the case of ASCII letters in the query. */
  lemma QueryCaseInsensitive(query: string, chat: Chat)
    ensures MatchesQuery(ToLower(query), chat) <==> MatchesQuery(query, chat)
  {
    ToLowerIdempotent(query);
  }

  /** `getPresence(userId)`: the stored entry, or both flags false for an unknown user. */
  function GetPresence(userPresence: map<string, Presence>, userId: string): (p: Presence)
    ensures userId in userPresence ==> p == userPresence[userId]
    ensures userId !in userPresence ==> !p.isOnline && !p.isViewing
  {
    if userId in userPresence then userPresence[userId] else Presence(false, false)
  }

  /** The flags a row's status indicator gets: stored presence OR the seed flag, missing read as false. */
  function RowFlags(userPresence: map<string, Presence>, chat: Chat): (p: Presence)
    ensures p.isOnline <==> GetPresence(userPresence, chat.participantId).isOnline || chat.isOnline == Some(true)
    ensures p.isViewing <==> GetPresence(userPresence, chat.participantId).isViewing || chat.isViewing == Some(true)
  {
    var stored := GetPresence(userPresence, chat.participantId);
    Presence(stored.isOnline || Flag(chat.isOnline), stored.isViewing || Flag(chat.isViewing))
  }

  /** The row's time stamp: the last message's, absent for an empty conversation. */
  function LastTimestamp(chat: Chat): (t: Option<string>)
    ensures t.None? <==> chat.messages == []
    ensures t.Some? ==> t.value == chat.messages[|chat.messages| - 1].timestamp
  {
    if chat.messages == [] then None else Some(chat.messages[|chat.messages| - 1].timestamp)
  }

  /** The unread badge is rendered iff the count is positive. */
  predicate ShowUnreadBadge(chat: Chat) {
    chat.unreadCount > 0
  }

  /** The row of the open conversation is highlighted. */
  predicate IsHighlighted(activeChat: Option<Chat>, chat: Chat) {
    activeChat.Some? && activeChat.value.id == chat.id
  }

  /** No two conversations of the list share an id. */
  predicate DistinctChatIds(chats: seq<Chat>) {
    forall i, j :: 0 <= i < j < |chats| ==> chats[i].id != chats[j].id
  }

  /**
   * With distinct ids, at most one listed row is highlighted, and the open conversation's
   * row is highlighted whenever the search lets it through.
   */
  lemma OneHighlightedRow(chats: seq<Chat>, query: string, activeChat: Option<Chat>)
    requires DistinctChatIds(chats)
    ensures forall i, j :: 0 <= i < j < |FilteredChats(chats, query)| && IsHighlighted(activeChat, FilteredChats(chats, query)[i]) ==>
      !IsHighlighted(activeChat, FilteredChats(chats, query)[j])
    ensures activeChat.Some? && activeChat.value in chats && MatchesQuery(query, activeChat.value) ==>
      exists i :: 0 <= i < |FilteredChats(chats, query)| && IsHighlighted(activeChat, FilteredChats(chats, query)[i])
  {
    FilterKeepsDistinctKeys(chats, c => MatchesQuery(query, c), (c: Chat) => c.id);
    if activeChat.Some? && activeChat.value in chats && MatchesQuery(query, activeChat.value) {
      FilteredIffMatches(chats, query, activeChat.value);
      var rows := FilteredChats(chats, query);
      var i :| 0 <= i < |rows| && rows[i] == activeChat.value;
      assert IsHighlighted(activeChat, rows[i]);
    }
  }
}
