/**
 * The stand-alone voice room: a landing card, a room picker and the room,
 * which holds the microphone while connected.
 */
module VoiceRoom {
  import opened Text
  import opened Voice

  /** The name the local participant is shown under. */
  const LocalName: JsString := Lit("Вы")

  /** The room title shown when the room name is empty. */
  const CommonRoom: JsString := Lit("Общая")

  const MutedLine: JsString := Lit("Микрофон выключен")
  const SpeakingLine: JsString := Lit("Говорит...")
  const OnlineLine: JsString := Lit("В сети")

  /** A remote connection in `peersRef`; the component never creates one. */
  datatype Peer = Peer(id: JsString)

  /** The three cards the component renders. */
  datatype Screen = Landing | RoomPicker | Room

  /** The line under a participant's name: muted first, then speaking, else online. */
  function StatusLine(u: VoiceUser): (r: JsString)
    ensures r == MutedLine <==> u.isMuted
    ensures r == SpeakingLine <==> !u.isMuted && u.isSpeaking
    ensures r == OnlineLine <==> !u.isMuted && !u.isSpeaking
  {
    assert MutedLine[0] != SpeakingLine[0] && MutedLine[0] != OnlineLine[0] && SpeakingLine[0] != OnlineLine[0];
    if u.isMuted then MutedLine else if u.isSpeaking then SpeakingLine else OnlineLine
  }

  /** The component's state; `localTrack` is the track of the stream in `localStreamRef`. */
  class VoiceChat {
    var isConnected: bool
    var isMuted: bool
    var users: seq<VoiceUser>
    var roomName: JsString
    var showRoomInput: bool
    var localTrack: AudioTrack?
    var peers: map<JsString, Peer>

    /**
     * Connected: the room card shows exactly the local participant, muted
     * exactly when the live track is disabled and never speaking (the
     * speaking loop reads a stale `isConnected` and stops at once).
     * Disconnected: nobody in the room, nothing muted, no peers.
     */
    predicate Valid()
      reads this, localTrack
    {
      if isConnected then
        && localTrack != null && !localTrack.stopped && !showRoomInput
        && users == [VoiceUser(LocalId, LocalName, isMuted, false)]
        && isMuted == !localTrack.enabled
      else
        users == [] && !isMuted && peers == map[]
    }

    /** The card on screen: landing, then the picker, then the room. */
    function Screen(): (s: Screen)
      reads this
      ensures s == Landing <==> !isConnected && !showRoomInput
      ensures s == RoomPicker <==> !isConnected && showRoomInput
      ensures s == Room <==> isConnected
    {
      if !isConnected && !showRoomInput then Landing
      else if showRoomInput && !isConnected then RoomPicker
      else Room
    }

    /** The room card's title: the room name, or "Общая" when it is empty. */
    function RoomTitle(): (r: JsString)
      reads this
      ensures r != []
      ensures roomName != [] ==> r == roomName
      ensures roomName == [] ==> r == CommonRoom
    {
      if roomName != [] then roomName else CommonRoom
    }

    /** The component mounts on the landing card with nothing held. */
    constructor ()
      ensures !isConnected && !isMuted && users == [] && roomName == [] && !showRoomInput
      ensures localTrack == null && peers == map[]
      ensures Valid() && Screen() == Landing
    {
      isConnected, isMuted, users, roomName, showRoomInput := false, false, [], [], false;
      localTrack, peers := null, map[];
    }

    /** "Подключиться к комнате": show the room picker. */
    method OpenRoomPicker()
      modifies this
      ensures showRoomInput
      ensures isConnected == old(isConnected) && isMuted == old(isMuted) && users == old(users)
      ensures roomName == old(roomName) && localTrack == old(localTrack) && peers == old(peers)
      ensures !old(isConnected) ==> Screen() == RoomPicker
      ensures old(Valid()) && !old(isConnected) ==> Valid()
    {
      showRoomInput := true;
    }

    /** "Отмена": hide the room picker. */
    method CancelRoomPicker()
      modifies this
      ensures !showRoomInput
      ensures isConnected == old(isConnected) && isMuted == old(isMuted) && users == old(users)
      ensures roomName == old(roomName) && localTrack == old(localTrack) && peers == old(peers)
      ensures !old(isConnected) ==> Screen() == Landing
      ensures old(Valid()) ==> Valid()
    {
      showRoomInput := false;
    }

    /** Typing in the room-name field. */
    method EditRoomName(name: JsString)
      modifies this
      ensures roomName == name
      ensures isConnected == old(isConnected) && isMuted == old(isMuted) && users == old(users)
      ensures showRoomInput == old(showRoomInput) && localTrack == old(localTrack) && peers == old(peers)
      ensures old(Valid()) ==> Valid()
    {
      roomName := name;
    }

    /**
     * "Войти": with a non-empty room name (white space counts), ask for the
     * microphone. Granted, the room opens with the local participant alone,
     * unmuted and silent; refused, nothing changes. `micGranted` is the
     * outcome of `getUserMedia`.
     */
    method EnterRoom(micGranted: bool)
      modifies this
      ensures old(roomName) == [] || !micGranted ==>
                && isConnected == old(isConnected) && showRoomInput == old(showRoomInput)
                && users == old(users) && localTrack == old(localTrack)
      ensures old(roomName) != [] && micGranted ==>
                && isConnected && !showRoomInput && users == [LocalUser(LocalName)]
                && localTrack != null && fresh(localTrack) && localTrack.enabled && !localTrack.stopped
                && Screen() == Room
      ensures isMuted == old(isMuted) && roomName == old(roomName) && peers == old(peers)
      ensures old(Valid()) && !old(isConnected) ==> Valid()
    {
      if roomName != [] {
        StartVoiceChat(micGranted);
      }
    }

    /** `startVoiceChat`: take the microphone and open the room, or leave everything as it was. */
    method StartVoiceChat(micGranted: bool)
      modifies this
      ensures !micGranted ==>
                && isConnected == old(isConnected) && showRoomInput == old(showRoomInput)
                && users == old(users) && localTrack == old(localTrack)
      ensures micGranted ==>
                && isConnected && !showRoomInput && users == [LocalUser(LocalName)]
                && localTrack != null && fresh(localTrack) && localTrack.enabled && !localTrack.stopped
      ensures isMuted == old(isMuted) && roomName == old(roomName) && peers == old(peers)
      ensures old(Valid()) && !old(isConnected) ==> Valid()
    {
      if !micGranted {
        return;
      }
      localTrack := new AudioTrack();
      isConnected, showRoomInput := true, false;
      users := [LocalUser(LocalName)];
    }

    /**
     * `toggleMute`: with a stream, flip its track and copy the new state to
     * `isMuted` and to the local participant only; without one, nothing.
     */
    method ToggleMute()
      modifies this, localTrack
      ensures localTrack == old(localTrack)
      ensures old(localTrack) == null ==> isMuted == old(isMuted) && users == old(users)
      ensures old(localTrack) != null ==>
                && localTrack.enabled == !old(localTrack.enabled) && localTrack.stopped == old(localTrack.stopped)
                && isMuted == old(localTrack.enabled)
                && users == WithLocalMuted(old(users), old(localTrack.enabled))
      ensures isConnected == old(isConnected) && showRoomInput == old(showRoomInput)
      ensures roomName == old(roomName) && peers == old(peers)
      ensures old(Valid()) && old(isConnected) ==> Valid()
    {
      if localTrack != null {
        localTrack.Flip();
        isMuted := !localTrack.enabled;
        users := WithLocalMuted(users, !localTrack.enabled);
      }
    }

    /**
     * `disconnect`: stop the track, drop every peer and empty the room. The
     * stream reference is kept, as the component never clears it.
     */
    method Disconnect()
      modifies this, localTrack
      ensures !isConnected && !isMuted && users == [] && peers == map[]
      ensures localTrack == old(localTrack) && (localTrack != null ==> localTrack.stopped)
      ensures localTrack != null ==> localTrack.enabled == old(localTrack.enabled)
      ensures roomName == old(roomName) && showRoomInput == old(showRoomInput)
      ensures Valid() && Screen() != Room
      ensures old(Valid()) && old(isConnected) ==> Screen() == Landing
    {
      if localTrack != null {
        localTrack.Stop();
      }
      peers := map[];
      isConnected, isMuted, users := false, false, [];
    }
  }
}
