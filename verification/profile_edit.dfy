/**
 * The profile editor: the profile record, its tag list of at most ten
 * entries, the avatar re-roll and the status icon.
 */
module Profile {
  import opened Text

  /** The edited profile; `status` and `privacy` hold the selected option's text. */
  datatype UserProfile = UserProfile(
    id: JsString,
    username: JsString,
    displayName: JsString,
    avatar: JsString,
    status: JsString,
    statusText: JsString,
    bio: JsString,
    email: JsString,
    phone: JsString,
    tags: seq<JsString>,
    privacy: JsString)

  /** The add-tag control accepts a tag only while fewer than this many are present. */
  const MaxTags := 10

  /** The profile the editor opens with. */
  const InitialProfile: UserProfile := UserProfile(
    Lit("me"), Lit("myusername"), Lit("Моё имя"),
    Lit("https://api.dicebear.com/7.x/avataaars/svg?seed=me"),
    Lit("online"), Lit("Онлайн"), Lit("Расскажите о себе..."),
    Lit("email@example.com"), Lit("+7 (900) 000-00-00"),
    [Lit("Программирование"), Lit("Музыка")], Lit("friends"))

  /** The avatar service the re-roll points at, before the seed. */
  const AvatarPrefix: JsString := Lit("https://api.dicebear.com/7.x/avataaars/svg?seed=")

  /** `tags.filter((_, i) => i !== index)`: every tag whose position is not `index`. */
  function OtherTags(tags: seq<JsString>, index: int): (r: seq<JsString>)
    decreases |tags|
  {
    if tags == [] then []
    else (if index == 0 then [] else [tags[0]]) + OtherTags(tags[1..], index - 1)
  }

  /**
   * Removing by position takes out exactly the tag at an index in range,
   * keeping the rest in order, and leaves the list as it is otherwise.
   */
  lemma {:induction false} OtherTagsExact(tags: seq<JsString>, index: int)
    ensures 0 <= index < |tags| ==> OtherTags(tags, index) == tags[..index] + tags[index + 1..]
    ensures !(0 <= index < |tags|) ==> OtherTags(tags, index) == tags
  {
    if tags != [] {
      OtherTagsExact(tags[1..], index - 1);
      if 0 < index < |tags| {
        assert tags[1..][..index - 1] == tags[1..index];
        assert [tags[0]] + tags[1..index] == tags[..index];
        assert tags[1..][index..] == tags[index + 1..];
      } else if index == 0 {
        assert tags[..0] + tags[1..] == tags[1..];
      } else {
        assert [tags[0]] + tags[1..] == tags;
      }
    }
  }

  const OnlineStatus: JsString := Lit("online")
  const AwayStatus: JsString := Lit("away")
  const BusyStatus: JsString := Lit("dnd")
  const OfflineStatus: JsString := Lit("offline")

  const OnlineIcon: JsString := Lit("CircleDot")
  const AwayIcon: JsString := Lit("Clock")
  const BusyIcon: JsString := Lit("MinusCircle")
  const PlainIcon: JsString := Lit("Circle")

  /** `getStatusIcon`: three statuses have their own icon, "offline" and anything else the plain circle. */
  function StatusIcon(status: JsString): (icon: JsString)
    ensures icon == OnlineIcon <==> status == OnlineStatus
    ensures icon == AwayIcon <==> status == AwayStatus
    ensures icon == BusyIcon <==> status == BusyStatus
    ensures icon == PlainIcon <==> status != OnlineStatus && status != AwayStatus && status != BusyStatus
  {
    assert |OnlineIcon| != |AwayIcon| && |OnlineIcon| != |BusyIcon| && |OnlineIcon| != |PlainIcon|;
    assert |AwayIcon| != |BusyIcon| && |AwayIcon| != |PlainIcon| && |BusyIcon| != |PlainIcon|;
    if status == OnlineStatus then OnlineIcon
    else if status == AwayStatus then AwayIcon
    else if status == BusyStatus then BusyIcon
    else PlainIcon
  }

  /** "offline" gets the same icon as an unknown status. */
  lemma OfflineIconIsDefault(status: JsString)
    requires status != OnlineStatus && status != AwayStatus && status != BusyStatus
    ensures StatusIcon(OfflineStatus) == StatusIcon(status)
  {
    assert OfflineStatus[1] != OnlineStatus[1] && |OfflineStatus| != |AwayStatus| && |OfflineStatus| != |BusyStatus|;
  }

  /** The editor's state; the save spinner and its timers are not part of it. */
  class ProfileEdit {
    var profile: UserProfile
    var newTag: JsString

    /** The tag list never outgrows the limit. */
    predicate Valid()
      reads this
    {
      |profile.tags| <= MaxTags
    }

    constructor ()
      ensures profile == InitialProfile && newTag == [] && Valid()
    {
      profile := InitialProfile;
      newTag := [];
    }

    /**
     * `addTag`: a tag that is not blank, while fewer than ten are present,
     * is appended trimmed (even if already present) and the input cleared;
     * otherwise nothing changes. Only the tags of the profile change.
     */
    method AddTag()
      modifies this
      ensures Trim(old(newTag)) != [] && |old(profile.tags)| < MaxTags ==>
                profile == old(profile).(tags := old(profile.tags) + [Trim(old(newTag))]) && newTag == []
      ensures Trim(old(newTag)) == [] || |old(profile.tags)| >= MaxTags ==>
                profile == old(profile) && newTag == old(newTag)
      ensures old(Valid()) ==> Valid()
    {
      if Trim(newTag) != [] && |profile.tags| < MaxTags {
        profile := profile.(tags := profile.tags + [Trim(newTag)]);
        newTag := [];
      }
    }

    /** `removeTag(index)`: drop the tag at that position; only the tags of the profile change. */
    method RemoveTag(index: int)
      modifies this
      ensures profile == old(profile).(tags := OtherTags(old(profile.tags), index))
      ensures newTag == old(newTag)
      ensures old(Valid()) ==> Valid()
    {
      OtherTagsExact(profile.tags, index);
      profile := profile.(tags := OtherTags(profile.tags, index));
    }

    /** `handleAvatarChange`: a new avatar address from the random `seed`; nothing else changes. */
    method HandleAvatarChange(seed: JsString)
      modifies this
      ensures profile == old(profile).(avatar := AvatarPrefix + seed)
      ensures newTag == old(newTag)
    {
      profile := profile.(avatar := AvatarPrefix + seed);
    }
  }
}
