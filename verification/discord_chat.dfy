/**
 * The text-only channel chat: a name gate, four channels over one shared
 * message log, posting and reactions.
 */
module Discord {
  import opened Text
  import opened ChatLog

  datatype Channel = Channel(id: JsString, name: JsString, icon: JsString)

  /** The four fixed text channels. */
  const Channels: seq<Channel> := [
    Channel(Lit("1"), Lit("общий"), Lit("Hash")),
    Channel(Lit("2"), Lit("помощь"), Lit("HelpCircle")),
    Channel(Lit("3"), Lit("новости"), Lit("Newspaper")),
    Channel(Lit("4"), Lit("разработка"), Lit("Code"))
  ]

  /** The two messages the log starts with, half an hour and an hour before `now`. */
  function Seeded(now: int): seq<ChatMessage> {
    [ ChatMessage(Lit("1"), Lit("Модератор"), [0xD83D, 0xDC68, 0x200D, 0xD83D, 0xDCBC],
                  Lit("Добро пожаловать в чат Not Lock! Здесь можно общаться и задавать вопросы."),
                  now - 3600000, [Reaction([0xD83D, 0xDC4B], 5)]),
      ChatMessage(Lit("2"), Lit("Пользователь"), [0xD83D, 0xDC64],
                  Lit("Привет всем! Отличный мессенджер!"),
                  now - 1800000, [Reaction([0xD83D, 0xDD25], 3)]) ]
  }

  /** The component's state. Every channel shows the same `messages`. */
  class DiscordChat {
    var activeChannel: Channel
    var messages: seq<ChatMessage>
    var newMessage: JsString
    var username: JsString
    var showUsernameInput: bool

    /** Mounting at time `now`: the first channel, the seeded log, the name gate shown. */
    constructor (now: int)
      ensures activeChannel == Channels[0] && messages == Seeded(now) && newMessage == []
      ensures username == Lit("Вы") && showUsernameInput
    {
      activeChannel := Channels[0];
      messages := Seeded(now);
      newMessage, username, showUsernameInput := [], Lit("Вы"), true;
    }

    /** The gate's button and Enter key: only a name that is not blank lets the visitor in. */
    method EnterChat()
      modifies this
      ensures showUsernameInput == (old(showUsernameInput) && Trim(old(username)) == [])
      ensures username == old(username) && messages == old(messages)
      ensures newMessage == old(newMessage) && activeChannel == old(activeChannel)
    {
      if Trim(username) != [] {
        showUsernameInput := false;
      }
    }

    /**
     * `sendMessage`: blank input changes nothing; otherwise the untrimmed
     * text is posted at the end with the smiling avatar and the input cleared.
     */
    method SendMessage(now: nat)
      modifies this
      ensures Trim(old(newMessage)) == [] ==> messages == old(messages) && newMessage == old(newMessage)
      ensures Trim(old(newMessage)) != [] ==>
                messages == old(messages) + [Posted(now, old(username), old(newMessage))] && newMessage == []
      ensures username == old(username) && showUsernameInput == old(showUsernameInput)
      ensures activeChannel == old(activeChannel)
    {
      if Trim(newMessage) == [] {
        return;
      }
      messages := messages + [Posted(now, username, newMessage)];
      newMessage := [];
    }

    /** `addReaction`: the click lands on the messages with that id and nowhere else. */
    method AddReaction(messageId: JsString, emoji: JsString)
      modifies this
      ensures messages == ChatLog.AddReaction(old(messages), messageId, emoji)
      ensures newMessage == old(newMessage) && username == old(username)
      ensures showUsernameInput == old(showUsernameInput) && activeChannel == old(activeChannel)
    {
      messages := ChatLog.AddReaction(messages, messageId, emoji);
    }

    /** A channel button: only the highlighted channel changes, the log stays shared. */
    method SelectChannel(channel: Channel)
      modifies this
      ensures activeChannel == channel
      ensures messages == old(messages) && newMessage == old(newMessage)
      ensures username == old(username) && showUsernameInput == old(showUsernameInput)
    {
      activeChannel := channel;
    }
  }
}
