/**
 * The direct-message panel: the conversation list with its search and
 * unread counters, the message pane, its sender-grouping rule and the
 * relative time labels.
 */
module Direct {
  import opened Text
  import opened Optional
  import Lists

  /** A direct message; `timestamp` is a `Date.now()` reading. */
  datatype DirectMessage = DirectMessage(
    id: JsString,
    senderId: JsString,
    senderName: JsString,
    senderAvatar: JsString,
    content: JsString,
    timestamp: int,
    isRead: bool)

  /** A conversation in the list. */
  datatype DirectChat = DirectChat(
    id: JsString,
    userId: JsString,
    userName: JsString,
    userAvatar: JsString,
    lastMessage: Option<JsString>,
    lastMessageTime: Option<int>,
    unreadCount: int,
    isOnline: bool)

  /** The conversations after a send in the chat `chatId`: only that one gets the new last message. */
  function WithLastMessage(chats: seq<DirectChat>, chatId: JsString, text: JsString, now: int): (r: seq<DirectChat>)
    ensures |r| == |chats|
    ensures forall i | 0 <= i < |r| && chats[i].id != chatId :: r[i] == chats[i]
    ensures forall i | 0 <= i < |r| && chats[i].id == chatId ::
              r[i] == chats[i].(lastMessage := Some(text), lastMessageTime := Some(now))
  {
    seq(|chats|, i requires 0 <= i < |chats| =>
      if chats[i].id == chatId then chats[i].(lastMessage := Some(text), lastMessageTime := Some(now))
      else chats[i])
  }

  /** The conversations after opening `chatId`: its unread counter drops to zero, nothing else moves. */
  function WithUnreadCleared(chats: seq<DirectChat>, chatId: JsString): (r: seq<DirectChat>)
    ensures |r| == |chats|
    ensures forall i | 0 <= i < |r| && chats[i].id != chatId :: r[i] == chats[i]
    ensures forall i | 0 <= i < |r| && chats[i].id == chatId :: r[i] == chats[i].(unreadCount := 0)
  {
    seq(|chats|, i requires 0 <= i < |chats| =>
      if chats[i].id == chatId then chats[i].(unreadCount := 0) else chats[i])
  }

  /** Opening a conversation twice is the same as opening it once. */
  lemma UnreadClearedIdempotent(chats: seq<DirectChat>, chatId: JsString)
    ensures WithUnreadCleared(WithUnreadCleared(chats, chatId), chatId) == WithUnreadCleared(chats, chatId)
  {
  }

  /**
   * `filteredChats`: the conversations whose lowered partner name contains
   * the lowered query; `lower` stands for `toLowerCase`.
   */
  function FilteredChats(chats: seq<DirectChat>, query: JsString, lower: JsString -> JsString): (r: seq<DirectChat>)
    ensures forall c | c in r :: c in chats && Includes(lower(c.userName), lower(query))
    ensures forall c | c in chats && Includes(lower(c.userName), lower(query)) :: c in r
  {
    Lists.Filter(chats, (c: DirectChat) => Includes(lower(c.userName), lower(query)))
  }

  /** The search keeps the list's order, and an empty query shows every conversation. */
  lemma FilteredChatsLaws(chats: seq<DirectChat>, query: JsString, lower: JsString -> JsString)
    ensures Lists.IsSubsequence(FilteredChats(chats, query, lower), chats)
    ensures lower(query) == [] ==> FilteredChats(chats, query, lower) == chats
  {
    var keep := (c: DirectChat) => Includes(lower(c.userName), lower(query));
    Lists.FilterIsSubsequence(chats, keep);
    if lower(query) == [] {
      forall c | c in chats
        ensures keep(c)
      {
        IncludesEmpty(lower(c.userName));
      }
      Lists.FilterKeepsAll(chats, keep);
    }
  }

  /** With no search typed (`"".toLowerCase()` is `""`), every conversation is listed. */
  lemma EmptySearchListsAllChats(chats: seq<DirectChat>, lower: JsString -> JsString)
    requires lower([]) == []
    ensures FilteredChats(chats, [], lower) == chats
  {
    FilteredChatsLaws(chats, [], lower);
  }

  /** The pane shows a sender's avatar on a message that opens a run of that sender's messages. */
  predicate ShowAvatar(messages: seq<DirectMessage>, index: nat)
    requires index < |messages|
  {
    index == 0 || messages[index - 1].senderId != messages[index].senderId
  }

  /**
   * Every message sits under a shown avatar of its own sender: some message
   * at or before it shows the avatar, and every message from there on is by
   * the same sender.
   */
  lemma {:induction false} AvatarHeadsRun(messages: seq<DirectMessage>, index: nat)
    requires index < |messages|
    ensures exists start | 0 <= start <= index ::
              && ShowAvatar(messages, start)
              && forall k | start <= k <= index :: messages[k].senderId == messages[index].senderId
  {
    if ShowAvatar(messages, index) {
      assert forall k | index <= k <= index :: messages[k].senderId == messages[index].senderId;
    } else {
      AvatarHeadsRun(messages, index - 1);
      var start :| 0 <= start <= index - 1
                  && ShowAvatar(messages, start)
                  && forall k | start <= k <= index - 1 :: messages[k].senderId == messages[index - 1].senderId;
      assert forall k | start <= k <= index :: messages[k].senderId == messages[index].senderId;
    }
  }

  /** Which of the four forms `formatTime` takes for an age of `diff` milliseconds. */
  datatype TimeLabel = JustNow | MinutesAgo(minutes: int) | ClockTime | CalendarDate

  /** `formatTime`'s thresholds: a minute, an hour, a day. */
  function Age(diff: int): (form: TimeLabel)
    ensures form == JustNow <==> diff < 60000
    ensures form.MinutesAgo? <==> 60000 <= diff < 3600000
    ensures form.MinutesAgo? ==>
              && 1 <= form.minutes <= 59
              && form.minutes * 60000 <= diff < (form.minutes + 1) * 60000
    ensures form == ClockTime <==> 3600000 <= diff < 86400000
    ensures form == CalendarDate <==> diff >= 86400000
  {
    if diff < 60000 then JustNow
    else if diff < 3600000 then MinutesAgo(diff / 60000)
    else if diff < 86400000 then ClockTime
    else CalendarDate
  }

  const JustNowText: JsString := Lit("только что")
  const MinutesSuffix: JsString := Lit(" мин назад")

  /**
   * The text of the first two forms; the other two are locale formatting of
   * the date. The minute form reads back as its minute count.
   */
  function MinutesText(minutes: nat): (t: JsString)
    ensures |t| > |MinutesSuffix|
    ensures t[|t| - |MinutesSuffix|..] == MinutesSuffix
    ensures forall i | 0 <= i < |t| - |MinutesSuffix| :: IsDigit(t[i])
    ensures DigitsValue(t[..|t| - |MinutesSuffix|]) == minutes
  {
    var digits := Decimal(minutes);
    assert (digits + MinutesSuffix)[..|digits|] == digits;
    digits + MinutesSuffix
  }

  /** The panel's state; the three props are fixed for its lifetime. */
  class DirectMessages {
    const currentUserId: JsString
    const currentUserName: JsString
    const currentUserAvatar: JsString
    var chats: seq<DirectChat>
    var activeChat: Option<DirectChat>
    var messages: seq<DirectMessage>
    var newMessage: JsString
    var searchQuery: JsString

    constructor (currentUserId: JsString, currentUserName: JsString, currentUserAvatar: JsString)
      ensures this.currentUserId == currentUserId && this.currentUserName == currentUserName
      ensures this.currentUserAvatar == currentUserAvatar
      ensures chats == [] && activeChat == None && messages == [] && newMessage == [] && searchQuery == []
    {
      this.currentUserId := currentUserId;
      this.currentUserName := currentUserName;
      this.currentUserAvatar := currentUserAvatar;
      chats, activeChat, messages, newMessage, searchQuery := [], None, [], [], [];
    }

    /**
     * `sendMessage`: with blank input or no open conversation nothing
     * changes; otherwise one unread message from the current user is
     * appended, the input cleared, and the open conversation (by id) gets
     * the text as its last message. `now` is the `Date.now()` reading.
     */
    method SendMessage(now: nat)
      modifies this
      ensures Trim(old(newMessage)) == [] || old(activeChat).None? ==>
                messages == old(messages) && newMessage == old(newMessage) && chats == old(chats)
      ensures Trim(old(newMessage)) != [] && old(activeChat).Some? ==>
                && messages == old(messages) + [DirectMessage(Decimal(now), currentUserId, currentUserName,
                                                              currentUserAvatar, old(newMessage), now, false)]
                && newMessage == []
                && chats == WithLastMessage(old(chats), old(activeChat).value.id, old(newMessage), now)
      ensures activeChat == old(activeChat) && searchQuery == old(searchQuery)
    {
      if Trim(newMessage) == [] || activeChat.None? {
        return;
      }
      var message := DirectMessage(Decimal(now), currentUserId, currentUserName, currentUserAvatar,
                                   newMessage, now, false);
      messages := messages + [message];
      chats := WithLastMessage(chats, activeChat.value.id, newMessage, now);
      newMessage := [];
    }

    /**
     * A click on a conversation: it becomes the open one (as the snapshot
     * clicked, so its own counter is not refreshed) and its unread counter
     * in the list drops to zero.
     */
    method SelectChat(chat: DirectChat)
      modifies this
      ensures activeChat == Some(chat)
      ensures chats == WithUnreadCleared(old(chats), chat.id)
      ensures messages == old(messages) && newMessage == old(newMessage) && searchQuery == old(searchQuery)
    {
      activeChat := Some(chat);
      chats := WithUnreadCleared(chats, chat.id);
    }
  }
}
