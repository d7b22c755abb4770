/**
 * The combined text and voice chat: a name gate, a shared message log with
 * reactions, and voice channels that take the microphone on entry and give
 * it back on leaving.
 */
module Unified {
  import opened Text
  import opened ChatLog
  import opened Voice

  datatype ChannelKind = TextChannel | VoiceChannel

  datatype Channel = Channel(id: JsString, name: JsString, icon: JsString, kind: ChannelKind)

  /** The four fixed channels: two text, two voice. */
  const Channels: seq<Channel> := [
    Channel(Lit("1"), Lit("общий"), Lit("Hash"), TextChannel),
    Channel(Lit("2"), Lit("помощь"), Lit("HelpCircle"), TextChannel),
    Channel(Lit("3"), Lit("голосовая-1"), Lit("Volume2"), VoiceChannel),
    Channel(Lit("4"), Lit("голосовая-2"), Lit("Radio"), VoiceChannel)
  ]

  /** The name every visitor starts with. */
  const DefaultName: JsString := Lit("Вы")

  /** The moderator's greeting, posted an hour before the page was opened at `now`. */
  function Greeting(now: int): ChatMessage {
    ChatMessage(Lit("1"), Lit("Модератор"), [0xD83D, 0xDC68, 0x200D, 0xD83D, 0xDCBC],
                Lit("Добро пожаловать! Выберите голосовой канал для общения голосом."),
                now - 3600000, [Reaction([0xD83D, 0xDC4B], 5)])
  }

  /** The component's state; `localTrack` is the track of the stream in `localStreamRef`. */
  class UnifiedChat {
    var activeChannel: Channel
    var messages: seq<ChatMessage>
    var newMessage: JsString
    var username: JsString
    var showUsernameInput: bool
    var isInVoice: bool
    var isMuted: bool
    var voiceUsers: seq<VoiceUser>
    var localTrack: AudioTrack?

    /**
     * The voice state agrees with itself: in voice, the room shows exactly
     * the local participant, muted exactly when the live track is disabled;
     * out of voice, the room is empty and nothing is muted.
     */
    predicate Valid()
      reads this, localTrack
    {
      if isInVoice then
        && localTrack != null && !localTrack.stopped
        && |voiceUsers| == 1 && voiceUsers[0].id == LocalId
        && voiceUsers[0].isMuted == isMuted && isMuted == !localTrack.enabled
      else
        voiceUsers == [] && !isMuted
    }

    /** Mounting at time `now`: the first channel, the greeting, the name gate shown. */
    constructor (now: int)
      ensures activeChannel == Channels[0] && messages == [Greeting(now)] && newMessage == []
      ensures username == DefaultName && showUsernameInput
      ensures !isInVoice && !isMuted && voiceUsers == [] && localTrack == null
      ensures Valid()
    {
      activeChannel := Channels[0];
      messages := [Greeting(now)];
      newMessage, username, showUsernameInput := [], DefaultName, true;
      isInVoice, isMuted, voiceUsers, localTrack := false, false, [], null;
    }

    /** The gate's button: it lets a visitor in only under a name that is not blank. */
    method EnterChat()
      modifies this
      ensures showUsernameInput == (old(showUsernameInput) && Trim(old(username)) == [])
      ensures username == old(username) && messages == old(messages) && newMessage == old(newMessage)
      ensures activeChannel == old(activeChannel) && isInVoice == old(isInVoice) && isMuted == old(isMuted)
      ensures voiceUsers == old(voiceUsers) && localTrack == old(localTrack)
    {
      if Trim(username) != [] {
        showUsernameInput := false;
      }
    }

    /**
     * `sendMessage`: blank input changes nothing; otherwise the untrimmed
     * text is posted at the end under the current name and the input cleared.
     */
    method SendMessage(now: nat)
      modifies this
      ensures Trim(old(newMessage)) == [] ==> messages == old(messages) && newMessage == old(newMessage)
      ensures Trim(old(newMessage)) != [] ==>
                messages == old(messages) + [Posted(now, old(username), old(newMessage))] && newMessage == []
      ensures username == old(username) && showUsernameInput == old(showUsernameInput)
      ensures activeChannel == old(activeChannel) && isInVoice == old(isInVoice) && isMuted == old(isMuted)
      ensures voiceUsers == old(voiceUsers) && localTrack == old(localTrack)
    {
      if Trim(newMessage) == [] {
        return;
      }
      messages := messages + [Posted(now, username, newMessage)];
      newMessage := [];
    }

    /** `addReaction`: the click lands on the messages with that id and nowhere else. */
    method AddReaction(messageId: JsString, emoji: JsString)
      modifies this
      ensures messages == ChatLog.AddReaction(old(messages), messageId, emoji)
      ensures newMessage == old(newMessage) && username == old(username)
      ensures showUsernameInput == old(showUsernameInput) && activeChannel == old(activeChannel)
      ensures isInVoice == old(isInVoice) && isMuted == old(isMuted)
      ensures voiceUsers == old(voiceUsers) && localTrack == old(localTrack)
    {
      messages := ChatLog.AddReaction(messages, messageId, emoji);
    }

    /**
     * `joinVoiceChannel`; `micGranted` says whether `getUserMedia` resolved.
     * A refusal changes nothing. A grant holds a fresh live track and shows
     * the local participant alone, unmuted and silent.
     */
    method JoinVoiceChannel(micGranted: bool)
      modifies this
      ensures !micGranted ==> isInVoice == old(isInVoice) && voiceUsers == old(voiceUsers) && localTrack == old(localTrack)
      ensures micGranted ==>
                && isInVoice && voiceUsers == [LocalUser(old(username))]
                && localTrack != null && fresh(localTrack) && localTrack.enabled && !localTrack.stopped
      ensures isMuted == old(isMuted) && activeChannel == old(activeChannel)
      ensures messages == old(messages) && newMessage == old(newMessage) && username == old(username)
      ensures showUsernameInput == old(showUsernameInput)
      ensures old(Valid()) && !old(isInVoice) ==> Valid()
    {
      if !micGranted {
        return;
      }
      localTrack := new AudioTrack();
      isInVoice := true;
      voiceUsers := [LocalUser(username)];
    }

    /**
     * `leaveVoiceChannel`: stop the track and empty the room. The stream
     * reference is kept, as the component never clears it.
     */
    method LeaveVoiceChannel()
      modifies this, localTrack
      ensures !isInVoice && !isMuted && voiceUsers == []
      ensures localTrack == old(localTrack) && (localTrack != null ==> localTrack.stopped)
      ensures localTrack != null ==> localTrack.enabled == old(localTrack.enabled)
      ensures activeChannel == old(activeChannel) && messages == old(messages)
      ensures newMessage == old(newMessage) && username == old(username)
      ensures showUsernameInput == old(showUsernameInput)
      ensures Valid()
    {
      if localTrack != null {
        localTrack.Stop();
      }
      isInVoice, isMuted, voiceUsers := false, false, [];
    }

    /**
     * `toggleMute`: with a stream, flip its track and copy the new state to
     * `isMuted` and to the local participant only; without one, nothing.
     */
    method ToggleMute()
      modifies this, localTrack
      ensures localTrack == old(localTrack)
      ensures old(localTrack) == null ==> isMuted == old(isMuted) && voiceUsers == old(voiceUsers)
      ensures old(localTrack) != null ==>
                && localTrack.enabled == !old(localTrack.enabled) && localTrack.stopped == old(localTrack.stopped)
                && isMuted == old(localTrack.enabled)
                && voiceUsers == WithLocalMuted(old(voiceUsers), old(localTrack.enabled))
      ensures isInVoice == old(isInVoice) && activeChannel == old(activeChannel)
      ensures messages == old(messages) && newMessage == old(newMessage) && username == old(username)
      ensures showUsernameInput == old(showUsernameInput)
      ensures old(Valid()) && old(isInVoice) ==> Valid()
    {
      if localTrack != null {
        localTrack.Flip();
        isMuted := !localTrack.enabled;
        voiceUsers := WithLocalMuted(voiceUsers, !localTrack.enabled);
      }
    }

    /**
     * `handleChannelClick`: the channel always becomes active; a voice
     * channel joins when not in voice, a text channel leaves when in voice,
     * and any other click leaves the voice state alone.
     */
    method HandleChannelClick(channel: Channel, micGranted: bool)
      modifies this, localTrack
      ensures activeChannel == channel
      ensures channel.kind == VoiceChannel && !old(isInVoice) ==>
                && (micGranted <==> isInVoice)
                && (micGranted ==> voiceUsers == [LocalUser(old(username))] && fresh(localTrack))
                && (!micGranted ==> voiceUsers == old(voiceUsers) && localTrack == old(localTrack))
      ensures channel.kind == TextChannel && old(isInVoice) ==> !isInVoice && !isMuted && voiceUsers == []
      ensures (channel.kind == VoiceChannel) == old(isInVoice) ==>
                && isInVoice == old(isInVoice) && isMuted == old(isMuted)
                && voiceUsers == old(voiceUsers) && localTrack == old(localTrack)
      ensures messages == old(messages) && newMessage == old(newMessage) && username == old(username)
      ensures showUsernameInput == old(showUsernameInput)
      ensures old(Valid()) ==> Valid()
    {
      activeChannel := channel;
      if channel.kind == VoiceChannel && !isInVoice {
        JoinVoiceChannel(micGranted);
      } else if channel.kind == TextChannel && isInVoice {
        LeaveVoiceChannel();
      }
    }
  }
}
