/**
 * What the two voice components share: the microphone track, the voice
 * participant record and the "is speaking" test on the analyser's bins.
 */
module Voice {
  import opened Text

  /** One frequency bin of `getByteFrequencyData`. */
  type Byte = b: int | 0 <= b < 0x100

  /** The microphone's audio track; only its `enabled` switch and `stop()` are used. */
  class AudioTrack {
    var enabled: bool
    var stopped: bool

    /** A track handed out by `getUserMedia` is live and enabled. */
    constructor ()
      ensures enabled && !stopped
    {
      enabled, stopped := true, false;
    }

    /** `track.enabled = !track.enabled`. */
    method Flip()
      modifies this
      ensures enabled == !old(enabled) && stopped == old(stopped)
    {
      enabled := !enabled;
    }

    /** `track.stop()`. */
    method Stop()
      modifies this
      ensures stopped && enabled == old(enabled)
    {
      stopped := true;
    }
  }

  /** A participant of a voice room. */
  datatype VoiceUser = VoiceUser(id: JsString, name: JsString, isMuted: bool, isSpeaking: bool)

  /** The id of the participant on this device. */
  const LocalId: JsString := Lit("local")

  /** The participant a successful join shows: this device, unmuted and silent. */
  function LocalUser(name: JsString): (u: VoiceUser)
    ensures u.id == LocalId && u.name == name && !u.isMuted && !u.isSpeaking
  {
    VoiceUser(LocalId, name, false, false)
  }

  /** The sum of the bins, `dataArray.reduce((a, b) => a + b)`. */
  function Sum(bins: seq<Byte>): nat {
    if bins == [] then 0 else Sum(bins[..|bins| - 1]) + bins[|bins| - 1]
  }

  /**
   * The speaking test: the mean bin is above 30 and the participant is not
   * muted. The analyser always has bins, so the mean is defined.
   */
  predicate IsSpeaking(bins: seq<Byte>, muted: bool)
    requires |bins| > 0
  {
    (Sum(bins) as real) / (|bins| as real) > 30.0 && !muted
  }

  /** A mean of `n` values summing to `s` exceeds 30 exactly when `s` exceeds `30 * n`. */
  lemma MeanAboveThirty(s: nat, n: nat)
    requires n > 0
    ensures (s as real) / (n as real) > 30.0 <==> s > 30 * n
  {
    var excess := (s as real) / (n as real) - 30.0;
    assert excess * (n as real) == (s as real) - 30.0 * (n as real);
    assert (30 * n) as real == 30.0 * (n as real);
    if excess > 0.0 {
      assert excess * (n as real) > 0.0;
    } else {
      assert excess * (n as real) <= 0.0;
    }
  }

  /** The mean exceeds 30 exactly when the sum exceeds 30 per bin. */
  lemma SpeakingIffSum(bins: seq<Byte>, muted: bool)
    requires |bins| > 0
    ensures IsSpeaking(bins, muted) <==> !muted && Sum(bins) > 30 * |bins|
  {
    MeanAboveThirty(Sum(bins), |bins|);
  }

  /** `users.map(u => u.id === "local" ? {...u, isMuted: muted} : u)`. */
  function WithLocalMuted(users: seq<VoiceUser>, muted: bool): (r: seq<VoiceUser>)
    ensures |r| == |users|
    ensures forall i | 0 <= i < |r| && users[i].id != LocalId :: r[i] == users[i]
    ensures forall i | 0 <= i < |r| && users[i].id == LocalId :: r[i] == users[i].(isMuted := muted)
  {
    seq(|users|, i requires 0 <= i < |users| =>
      if users[i].id == LocalId then users[i].(isMuted := muted) else users[i])
  }

  /** `users.map(u => u.id === "local" ? {...u, isSpeaking: <speaking test>} : u)`. */
  function WithLocalSpeaking(users: seq<VoiceUser>, bins: seq<Byte>, muted: bool): (r: seq<VoiceUser>)
    requires |bins| > 0
    ensures |r| == |users|
    ensures forall i | 0 <= i < |r| && users[i].id != LocalId :: r[i] == users[i]
    ensures forall i | 0 <= i < |r| && users[i].id == LocalId ::
              r[i] == users[i].(isSpeaking := IsSpeaking(bins, muted))
  {
    seq(|users|, i requires 0 <= i < |users| =>
      if users[i].id == LocalId then users[i].(isSpeaking := IsSpeaking(bins, muted)) else users[i])
  }

  /** A muted participant is never shown as speaking, however loud the bins. */
  lemma MutedNeverSpeaks(users: seq<VoiceUser>, bins: seq<Byte>)
    requires |bins| > 0
    ensures forall i | 0 <= i < |users| && users[i].id == LocalId ::
              !WithLocalSpeaking(users, bins, true)[i].isSpeaking
  {
  }

  /** Right after a join the room holds only the local participant, so the update touches just it. */
  lemma JoinedRoomMuteUpdate(name: JsString, muted: bool)
    ensures WithLocalMuted([LocalUser(name)], muted) == [LocalUser(name).(isMuted := muted)]
  {
  }
}
