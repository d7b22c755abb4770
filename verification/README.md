# A verified model of the messenger's client components

The site is a single-page React messenger. Its components keep their state in
`useState` hooks and change it from event handlers. This project models, in Dafny:

- the sign-up / sign-in form and the accounts it keeps in `localStorage`;
- the page that switches between the sign-in screen, the profile screens and the home page;
- the two text chats with emoji reactions;
- the combined text-and-voice chat;
- direct messages, the friends list and the profile editor;
- the incoming-call card with its call timer;
- the stand-alone voice room;
- the "encrypted" chat, which XORs a message with a key and Base64-encodes it with `btoa`.

Each component with changing state is a `class`. Its fields are the component's state
variables, and its methods are the handlers, with `modifies` frames. The array
computations the handlers build new state from (`filter`, `find`, `map`, spreads) are
functions. Lemmas state what the site relies on. Examples:

- registering keeps e-mail addresses unique, and a registered account can then sign in;
- decrypting with the same key gives back the plain text;
- the friend-request tabs partition the requests;
- counting a reaction adds exactly one to the total;
- the call timer reads back as minutes and seconds.

Strings are JavaScript strings: sequences of UTF-16 code units (`Text.JsString`). So
`length`, `trim`, `charCodeAt`, `btoa` and `atob` are modelled unit for unit. `btoa` and
`atob` follow the forgiving-base64 algorithm of the WHATWG HTML standard
(section 8.3, "Base64 utility methods").

Values that come from outside the component become parameters:

- `Date.now()` readings (`now`, `id`);
- `Math.random()` draws;
- the answer to the microphone prompt (`micGranted`);
- the result of `toLowerCase` (`lower`).

## Model

| member | source | states |
|---|---|---|
| Text.Lit | src/components/UnifiedChat.tsx:52 | A string literal's code units: one per character, same length. |
| Text.LeadingSpace | src/components/EncryptedChat.tsx:60 | The white-space prefix `trim` drops: all white space, followed by a non-space unit or the end. |
| Text.TrailingSpace | src/components/EncryptedChat.tsx:60 | The white-space suffix `trim` drops, symmetrically. |
| Text.Trim | src/components/EncryptedChat.tsx:60 | `trim()` is empty exactly when the input is all white space; otherwise it is exactly the slice between the dropped white-space prefix and suffix, starting and ending with a non-space unit. |
| Text.IncludesEmpty | src/components/FriendsList.tsx:95-97 | Every string includes the empty query, so an empty search keeps everything. |
| Text.Decimal | src/components/AuthSystem.tsx:65 | `toString()` of a non-negative integer: a digit string with no leading zero that denotes the number; one digit below 10, at most two below 100. |
| Text.PadStart2 | src/components/VoiceCall.tsx:128 | `padStart(2, '0')`: width max(2, length), original kept as the suffix, zeros before it. |
| Text.LeadingZeroValue | src/components/VoiceCall.tsx:128 | A leading zero does not change a numeral's value. |
| Text.PadStart2Value | src/components/VoiceCall.tsx:128 | Padding keeps a numeral a numeral of the same value. |
| Lists.Filter | src/components/FriendsList.tsx:95-100 | `filter` keeps exactly the elements that pass the test and is no longer than its input. |
| Lists.FilterIsSubsequence | src/components/FriendsList.tsx:73-75 | `filter` keeps the input's order: its result is a subsequence. |
| Lists.FilterKeepsAll | src/components/DirectMessages.tsx:87-89 | A test every element passes returns the list unchanged. |
| Lists.FilterPartition | src/components/FriendsList.tsx:99-100 | Two complementary filters split a list: their lengths add up to its length. |
| Lists.FilterNonEmpty | src/components/FriendsList.tsx:52-54 | If some element passes, the filtered list is non-empty. |
| Lists.FindIndex | src/components/FriendsList.tsx:38 | The first index whose element passes, or none exactly when no element passes. |
| Lists.Find | src/components/AuthSystem.tsx:58 | `find`: the first passing element, or `undefined` exactly when none passes. |
| Session.LocalStorage.constructor | src/pages/Index.tsx:30-33 | Storage starts with the saved items. |
| Session.LocalStorage.SetItem | src/components/AuthSystem.tsx:76 | `setItem` overwrites one key and leaves the others alone. |
| Session.LocalStorage.RemoveItem | src/pages/Index.tsx:43-46 | `removeItem` deletes one key and leaves the others alone. |
| Session.SavedUsers | src/components/AuthSystem.tsx:24-27 | The account list at start-up: the saved list, or empty when nothing (or no list) is saved. |
| Session.SavedCurrentUser | src/pages/Index.tsx:30-33 | The signed-in user at start-up: present exactly when one is saved under `currentUser`. |
| Auth.RegistrationCheck | src/components/AuthSystem.tsx:43-62 | Registration is refused, in the source's order, for a missing field, a mismatched confirmation, a password under 6 units or an e-mail already in use; accepted exactly when none applies. |
| Auth.NewUser | src/components/AuthSystem.tsx:64-72 | The new account's id is the decimal `Date.now()`. It keeps the form's e-mail and password and gets the default avatar. |
| Auth.LoginCheck | src/components/AuthSystem.tsx:85-100 | Sign-in fails on an empty field, or exactly when no account matches both e-mail and password; otherwise it returns the first matching account. |
| Auth.AppendKeepsEmailsDistinct | src/components/AuthSystem.tsx:74 | Appending an account with a fresh e-mail keeps e-mails unique. |
| Auth.RegistrationKeepsEmailsDistinct | src/components/AuthSystem.tsx:58-74 | An accepted registration keeps e-mail addresses unique. |
| Auth.RegisterThenLogin | src/components/AuthSystem.tsx:38-105 | After a successful registration, signing in with the same e-mail and password succeeds and returns the new account. |
| Auth.WrongPasswordRefused | src/components/AuthSystem.tsx:95-100 | With unique e-mails, a wrong password for an existing account is refused. |
| Auth.AuthSystem.constructor | src/components/AuthSystem.tsx:24-36 | The form starts empty, with the account list loaded from storage. |
| Auth.AuthSystem.HandleRegister | src/components/AuthSystem.tsx:38-83 | A refused registration sets the matching error and changes nothing else. An accepted one appends the account, saves it, clears the form and keeps e-mails unique. |
| Auth.AuthSystem.AddAccount | src/components/AuthSystem.tsx:64-82 | The accepted branch, reached once no saved user has the e-mail: append, save under `users`, report success, clear the registration fields; storage stays in step and e-mails stay distinct. |
| Auth.AuthSystem.HandleLogin | src/components/AuthSystem.tsx:85-105 | Failure sets the error and returns nothing. Success saves the account as `currentUser`, reports success and hands the account to the page. |
| Pages.CurrentView | src/pages/Index.tsx:56-114 | Which screen renders: sign-in first, then profile edit, then profile (both only when signed in), else the home page. |
| Pages.HomeSections | src/pages/Index.tsx:125-190 | The home page's sections in order; profile editing is among them exactly when someone is signed in. |
| Pages.DirectMessageName | src/pages/Index.tsx:145-147 | The direct-message name: the user's name when non-empty, otherwise "Гость". |
| Pages.DirectMessageAvatar | src/pages/Index.tsx:145-149 | The direct-message avatar: the user's avatar when non-empty, otherwise the guest avatar. |
| Pages.IndexPage.constructor | src/pages/Index.tsx:30-36 | The page starts on the saved user with every overlay closed. |
| Pages.IndexPage.ShowAuth | src/pages/Index.tsx:118 | Opening sign-in shows the sign-in screen. |
| Pages.IndexPage.HideAuth | src/pages/Index.tsx:62 | "Back" from sign-in closes it and nothing else. |
| Pages.IndexPage.ShowProfile | src/pages/Index.tsx:119 | Opening the profile sets only its flag. |
| Pages.IndexPage.HideProfile | src/pages/Index.tsx:98 | "Back" from the profile clears only its flag. |
| Pages.IndexPage.HideProfileEdit | src/pages/Index.tsx:80 | "Back" from profile editing clears only its flag. |
| Pages.IndexPage.HandleLogin | src/pages/Index.tsx:38-41 | Signing in sets the user and closes sign-in. |
| Pages.IndexPage.HandleLogout | src/pages/Index.tsx:43-46 | Signing out clears the user and removes it from storage. |
| Pages.IndexPage.HandleUpdateAvatar | src/pages/Index.tsx:48-54 | With a user, sets the avatar and saves the updated user; without one, nothing changes. |
| Pages.IndexPage.SubmitLogin | src/pages/Index.tsx:68 | The sign-in form's successful submit signs the page in with the returned account; a failed one leaves the page as it was. |
| ChatLog.Posted | src/components/UnifiedChat.tsx:152-160 | A posted message: id is the decimal `Date.now()`, same timestamp, the author and text given, no reactions. |
| ChatLog.React | src/components/UnifiedChat.tsx:168-180 | An existing emoji's count goes up by one and nothing else changes; a new emoji is appended with count 1. |
| ChatLog.Occurrences | src/components/UnifiedChat.tsx:168 | How many reactions carry an emoji, at most the list's length. |
| ChatLog.DistinctOccursOnce | src/components/UnifiedChat.tsx:168 | With distinct emojis, an emoji occurs once if present, else not at all. |
| ChatLog.TotalAfterCountingUp | src/components/UnifiedChat.tsx:170-174 | Counting up every matching reaction adds the number of matches to the total. |
| ChatLog.TotalAppend | src/components/UnifiedChat.tsx:176-179 | Appending a reaction adds its count to the total. |
| ChatLog.ReactKeepsDistinctAndCountsOne | src/components/UnifiedChat.tsx:165-185 | Reacting keeps emojis distinct and adds exactly one to the total. |
| ChatLog.AddReaction | src/components/DiscordChat.tsx:80-100 | Only messages with the given id change, and those exactly by `React`. |
| ChatLog.AddReactionKeepsDistinct | src/components/DiscordChat.tsx:80-100 | Every message keeps distinct emojis, and the reacted one gains exactly one reaction. |
| ChatLog.AddReactionUnknownId | src/components/DiscordChat.tsx:82 | An unknown message id changes nothing. |
| Discord.DiscordChat.constructor | src/components/DiscordChat.tsx:24-53 | First channel active, the seeded messages, the name "Вы" and the name gate shown. |
| Discord.DiscordChat.EnterChat | src/components/DiscordChat.tsx:121 | The gate closes exactly when the trimmed name is non-empty. |
| Discord.DiscordChat.SendMessage | src/components/DiscordChat.tsx:64-78 | A blank message changes nothing. Otherwise the message is posted under the current name and the input cleared. |
| Discord.DiscordChat.AddReaction | src/components/DiscordChat.tsx:80-100 | The log becomes `ChatLog.AddReaction` of the old log. |
| Discord.DiscordChat.SelectChannel | src/components/DiscordChat.tsx:157 | The clicked channel becomes active and the log is untouched. |
| Voice.AudioTrack.constructor | src/components/VoiceChat.tsx:27 | A granted track is live and enabled. |
| Voice.AudioTrack.Flip | src/components/VoiceChat.tsx:80 | `enabled = !enabled`. |
| Voice.AudioTrack.Stop | src/components/VoiceChat.tsx:93 | `stop()` ends the track. |
| Voice.LocalUser | src/components/VoiceChat.tsx:38-44 | The joining participant: local id, given name, not muted, not speaking. |
| Voice.MeanAboveThirty | src/components/VoiceChat.tsx:61-62 | The bins' average exceeds 30 exactly when their sum exceeds 30 times their count. |
| Voice.SpeakingIffSum | src/components/UnifiedChat.tsx:105-113 | A participant is speaking exactly when not muted and the bins' sum exceeds 30 per bin. |
| Voice.WithLocalMuted | src/components/UnifiedChat.tsx:141-145 | Only the local participant's mute flag changes. |
| Voice.WithLocalSpeaking | src/components/UnifiedChat.tsx:107-113 | Only the local participant's speaking flag changes, to the speaking test. |
| Voice.MutedNeverSpeaks | src/components/UnifiedChat.tsx:110 | A muted participant is never marked speaking. |
| Voice.JoinedRoomMuteUpdate | src/components/VoiceChat.tsx:83-87 | In a room holding only the local participant, muting updates exactly that participant's flag. |
| Unified.UnifiedChat.constructor | src/components/UnifiedChat.tsx:39-56 | Starts on the first channel with the greeting, the gate shown, not in voice, no track. |
| Unified.UnifiedChat.EnterChat | src/components/UnifiedChat.tsx:215 | The gate closes exactly when the trimmed name is non-empty. |
| Unified.UnifiedChat.SendMessage | src/components/UnifiedChat.tsx:149-163 | A blank message changes nothing. Otherwise it is posted and the input cleared; voice state is untouched. |
| Unified.UnifiedChat.AddReaction | src/components/UnifiedChat.tsx:165-185 | The log becomes `ChatLog.AddReaction` of the old log. |
| Unified.UnifiedChat.JoinVoiceChannel | src/components/UnifiedChat.tsx:70-96 | A denied microphone changes nothing. A granted one gives a fresh live track, enters voice and lists exactly the local user. |
| Unified.UnifiedChat.LeaveVoiceChannel | src/components/UnifiedChat.tsx:121-133 | Stops the track and leaves voice: nobody listed, not muted. |
| Unified.UnifiedChat.ToggleMute | src/components/UnifiedChat.tsx:135-147 | With a track: flips it, and `isMuted` and the local entry follow. Without one: nothing. |
| Unified.UnifiedChat.HandleChannelClick | src/components/UnifiedChat.tsx:191-198 | The channel becomes active. A voice channel joins when out of voice; a text channel leaves when in voice; otherwise voice state stays. |
| VoiceRoom.StatusLine | src/components/VoiceChat.tsx:220 | The participant line: muted first, then speaking, else online; each exactly in its case. |
| VoiceRoom.VoiceChat.Screen | src/components/VoiceChat.tsx:114-175 | Landing, room picker or room, each exactly under its flags. |
| VoiceRoom.VoiceChat.RoomTitle | src/components/VoiceChat.tsx:186 | The room name, or "Общая" when it is empty. |
| VoiceRoom.VoiceChat.constructor | src/components/VoiceChat.tsx:15-23 | Starts on the landing card with nothing connected. |
| VoiceRoom.VoiceChat.OpenRoomPicker | src/components/VoiceChat.tsx:128 | Shows the room picker. |
| VoiceRoom.VoiceChat.CancelRoomPicker | src/components/VoiceChat.tsx:166 | Back to the landing card. |
| VoiceRoom.VoiceChat.EditRoomName | src/components/VoiceChat.tsx:149-154 | The typed room name is stored and nothing else changes. |
| VoiceRoom.VoiceChat.EnterRoom | src/components/VoiceChat.tsx:159 | An empty name or a denied microphone does not connect. Otherwise the room screen shows with the local user. |
| VoiceRoom.VoiceChat.StartVoiceChat | src/components/VoiceChat.tsx:25-52 | On a grant: fresh live track, connected, picker closed, exactly the local user. On a denial: nothing changes. |
| VoiceRoom.VoiceChat.ToggleMute | src/components/VoiceChat.tsx:77-89 | With a track: flips it, and `isMuted` and the local entry follow. |
| VoiceRoom.VoiceChat.Disconnect | src/components/VoiceChat.tsx:91-106 | Stops the track, drops peers and users, clears the flags; from the room, back to the landing card. |
| Calls.JoinedNumerals | src/components/VoiceCall.tsx:128 | Two numerals joined by ":" read back as minutes·60 + seconds. |
| Calls.ClockNumerals | src/components/VoiceCall.tsx:125-129 | The padded minute and second numerals denote the quotient and remainder by 60. |
| Calls.FormatDurationReadsBack | src/components/VoiceCall.tsx:125-129 | The call timer "MM:SS" reads back as the elapsed seconds, with a seconds part below 60. |
| Calls.FormatDurationWidth | src/components/VoiceCall.tsx:125-129 | Under 100 minutes the timer is exactly five units with the colon at index 2; from then on it grows. |
| Calls.VoiceCall.constructor | src/components/VoiceCall.tsx:16-18 | The card starts ringing, not in a call, at 0 s, and renders. |
| Calls.VoiceCall.HandleAccept | src/components/VoiceCall.tsx:112-117 | Accepting stops ringing and starts the call; the card still renders. |
| Calls.VoiceCall.HandleDecline | src/components/VoiceCall.tsx:119-123 | Declining stops ringing only; the card disappears exactly when no call is running. |
| Calls.VoiceCall.Tick | src/components/VoiceCall.tsx:98-110 | Each second adds one to the duration while in a call, and nothing otherwise. |
| Direct.WithLastMessage | src/components/DirectMessages.tsx:70-74 | Only the active chat gets the new last message and time. |
| Direct.WithUnreadCleared | src/components/DirectMessages.tsx:120-122 | Only the clicked chat's unread count becomes 0. |
| Direct.UnreadClearedIdempotent | src/components/DirectMessages.tsx:118-123 | Clicking the same chat twice is the same as once. |
| Direct.FilteredChats | src/components/DirectMessages.tsx:87-89 | Exactly the chats whose lower-cased name includes the lower-cased query. |
| Direct.FilteredChatsLaws | src/components/DirectMessages.tsx:87-89 | The search keeps order, and an empty query keeps every chat. |
| Direct.EmptySearchListsAllChats | src/components/DirectMessages.tsx:87-89 | With an empty search box every conversation is listed, given that lower-casing "" gives "". |
| Direct.AvatarHeadsRun | src/components/DirectMessages.tsx:202 | Every message belongs to a run of one sender whose first message shows the avatar. |
| Direct.Age | src/components/DirectMessages.tsx:77-85 | The age label picks "just now" under a minute, minutes under an hour, clock time under a day, else the date; minutes are `floor(diff / 60000)`. |
| Direct.MinutesText | src/components/DirectMessages.tsx:82 | "N мин назад": a numeral for N followed by the suffix. |
| Direct.DirectMessages.constructor | src/components/DirectMessages.tsx:35-43 | Starts with the given identity and no chats, messages or selection. |
| Direct.DirectMessages.SendMessage | src/components/DirectMessages.tsx:54-75 | A blank message or no chat changes nothing. Otherwise the message is appended, the chat's last message updated and the input cleared. |
| Direct.DirectMessages.SelectChat | src/components/DirectMessages.tsx:118-123 | Selects the chat and clears its unread count. |
| Friends.RequestById | src/components/FriendsList.tsx:38 | The first request with the id, or none exactly when there is none. |
| Friends.SuggestionById | src/components/FriendsList.tsx:57 | The first suggestion with the id, or none exactly when there is none. |
| Friends.RequestsWithout | src/components/FriendsList.tsx:52-54 | Exactly the requests whose id differs. |
| Friends.RequestsWithoutExact | src/components/FriendsList.tsx:52-54 | Removal keeps order, is the identity for an unknown id, and shrinks the list for a known one. |
| Friends.FriendsWithout | src/components/FriendsList.tsx:73-75 | Exactly the friends whose id differs. |
| Friends.FriendsWithoutExact | src/components/FriendsList.tsx:73-75 | Removal keeps order, is the identity for an unknown id, and shrinks the list for a known one. |
| Friends.Befriend | src/components/FriendsList.tsx:40-46 | An accepted request becomes an online friend with the requester's id, name, avatar and mutual count. |
| Friends.RequestTo | src/components/FriendsList.tsx:59-67 | An outgoing request to the suggestion, id the decimal `Date.now()`, mutual count defaulting to 0. |
| Friends.StatusColor | src/components/FriendsList.tsx:77-84 | Green for online, yellow for away, gray for anything else, each exactly in its case. |
| Friends.StatusText | src/components/FriendsList.tsx:86-93 | The status caption, each exactly in its case. |
| Friends.OfflineIsDefault | src/components/FriendsList.tsx:77-93 | An unknown status looks exactly like "offline". |
| Friends.FilteredFriends | src/components/FriendsList.tsx:95-97 | Exactly the friends whose lower-cased name includes the lower-cased query. |
| Friends.FilteredFriendsLaws | src/components/FriendsList.tsx:95-97 | The search keeps order, and an empty query keeps every friend. |
| Friends.EmptySearchListsAllFriends | src/components/FriendsList.tsx:95-97 | With an empty search box every friend is listed, given that lower-casing "" gives "". |
| Friends.IncomingRequests | src/components/FriendsList.tsx:99 | Exactly the incoming requests. |
| Friends.OutgoingRequests | src/components/FriendsList.tsx:100 | Exactly the outgoing requests. |
| Friends.RequestTabsPartition | src/components/FriendsList.tsx:99-100 | Every request is in exactly one tab, and the tab sizes add up. |
| Friends.FriendsList.constructor | src/components/FriendsList.tsx:29-35 | Starts with empty lists and queries. |
| Friends.FriendsList.AcceptRequest | src/components/FriendsList.tsx:37-50 | A known request becomes a friend and is removed; an unknown id changes nothing. |
| Friends.FriendsList.DeclineRequest | src/components/FriendsList.tsx:52-54 | Removes the requests with that id. |
| Friends.FriendsList.SendFriendRequest | src/components/FriendsList.tsx:56-71 | A known suggestion becomes an outgoing request and leaves the suggestions; an unknown id changes nothing. |
| Friends.FriendsList.RemoveFriend | src/components/FriendsList.tsx:73-75 | Removes the friends with that id. |
| Profile.OtherTagsExact | src/components/ProfileEdit.tsx:63-65 | Removing index i drops exactly that tag; an index out of range keeps every tag. |
| Profile.StatusIcon | src/components/ProfileEdit.tsx:75-83 | The status icon, each exactly in its case, with the plain circle as the default. |
| Profile.OfflineIconIsDefault | src/components/ProfileEdit.tsx:80-81 | An unknown status shows the offline icon. |
| Profile.ProfileEdit.constructor | src/components/ProfileEdit.tsx:33-47 | Starts on the initial profile, within the tag limit. |
| Profile.ProfileEdit.AddTag | src/components/ProfileEdit.tsx:56-61 | A non-blank tag is added trimmed while there are fewer than 10; otherwise nothing changes. The limit is kept. |
| Profile.ProfileEdit.RemoveTag | src/components/ProfileEdit.tsx:63-65 | Only the tag list changes, to the list without that index. |
| Profile.ProfileEdit.HandleAvatarChange | src/components/ProfileEdit.tsx:51-54 | The avatar becomes the avatar service's address with the seed; nothing else changes. |
| Base64.ValueOf | src/components/EncryptedChat.tsx:46 | The inverse of the alphabet: a letter's value, or none when the unit is not a letter. |
| Base64.LetterRoundTrip | src/components/EncryptedChat.tsx:46 | Each of the 64 values maps back to itself, and no letter is "=". |
| Base64.Letters | src/components/EncryptedChat.tsx:41 | Spells values letter for letter. |
| Base64.SextetsLength | src/components/EncryptedChat.tsx:41 | Each 3 bytes give 4 digits, and a short tail gives one more digit than bytes; never 1 mod 4. |
| Base64.EncodeLength | src/components/EncryptedChat.tsx:41 | `btoa` output is 4·ceil(n/3) long. |
| Base64.Values | src/components/EncryptedChat.tsx:46 | Reads letters back as values, one for one. |
| Base64.GroupRoundTrip | src/components/EncryptedChat.tsx:41-46 | A full group of four digits decodes to its three bytes. |
| Base64.OneByteGroup | src/components/EncryptedChat.tsx:41-46 | A two-digit tail decodes to its one byte. |
| Base64.TwoByteGroup | src/components/EncryptedChat.tsx:41-46 | A three-digit tail decodes to its two bytes. |
| Base64.BytesOfSextets | src/components/EncryptedChat.tsx:41-46 | Decoding the digits of any byte string gives it back. |
| Base64.EncodeHasNoWhiteSpace | src/components/EncryptedChat.tsx:41 | `btoa` output has no ASCII white space for `atob` to strip. |
| Base64.EncodePaddingStripped | src/components/EncryptedChat.tsx:41-46 | Stripping `atob`'s padding from `btoa` output leaves exactly the digit letters. |
| Base64.DecodeEncode | src/components/EncryptedChat.tsx:41-46 | `atob(btoa(b)) == b` for every byte string. |
| Base64.DecodeRejectsLengthOneModFour | src/components/EncryptedChat.tsx:46 | Input without white space whose length is 1 mod 4 makes `atob` throw. |
| Base64.DecodeRejectsMisplacedPad | src/components/EncryptedChat.tsx:46 | An '=' that is not final padding makes `atob` throw. |
| Base64.DecodeRejectsForeignUnit | src/components/EncryptedChat.tsx:46 | A unit outside the alphabet, "=" and white space makes `atob` throw. |
| Cipher.XorBitsTwice | src/components/EncryptedChat.tsx:39 | XOR with the same value twice is the identity. |
| Cipher.XorBitsZero | src/components/EncryptedChat.tsx:39 | XOR is zero exactly on equal operands. |
| Cipher.XorBitsBelow | src/components/EncryptedChat.tsx:39 | The XOR lies below 2^k exactly when the operands agree above bit k. |
| Cipher.XorTwice | src/components/EncryptedChat.tsx:51 | Decrypting a code unit undoes encrypting it. |
| Cipher.XorFitsByte | src/components/EncryptedChat.tsx:39-41 | The XOR fits a byte (so `btoa` accepts it) exactly when both units share their high byte. |
| Cipher.XorStream | src/components/EncryptedChat.tsx:34-40 | The cipher text has the length of the text. |
| Cipher.XorStreamTwice | src/components/EncryptedChat.tsx:34-57 | Applying the key stream twice returns the text. |
| Cipher.Latin1Bytes | src/components/EncryptedChat.tsx:41 | A string of units below 256 is `btoa`'s byte input, unchanged. |
| Cipher.SimpleEncrypt | src/components/EncryptedChat.tsx:34-42 | The loop computes the XOR with the cyclic key, then `btoa`; it throws exactly when `btoa` does. |
| Cipher.SimpleDecrypt | src/components/EncryptedChat.tsx:44-57 | `atob`, then the XOR loop; a malformed input gives "[Ошибка расшифровки]". |
| Cipher.EncryptSucceedsIff | src/components/EncryptedChat.tsx:34-42 | Encryption succeeds exactly when every text unit shares its high byte with its key unit. |
| Cipher.EncryptLength | src/components/EncryptedChat.tsx:34-42 | The cipher text is 4·ceil(n/3) units long. |
| Cipher.DecryptEncrypt | src/components/EncryptedChat.tsx:34-57 | Decrypting with the same key returns the text. |
| Cipher.DecryptWithAnyKey | src/components/EncryptedChat.tsx:44-57 | Any key decrypts without error, to the text XORed with both keys. |
| Cipher.DecryptMalformed | src/components/EncryptedChat.tsx:44-56 | Input with a unit outside the alphabet decrypts to the error text. |
| Cipher.DecryptTruncated | src/components/EncryptedChat.tsx:44-56 | Input of length 1 mod 4 decrypts to the error text. |
| Cipher.DecryptMisplacedPad | src/components/EncryptedChat.tsx:44-56 | Input with an '=' that is not final padding decrypts to the error text. |
| Cipher.MalformedSamples | src/components/EncryptedChat.tsx:44-56 | "AAAAA" and "A=AA" decrypt to the error text under any key. |
| Cipher.CyrillicNeedsMatchingKey | src/components/EncryptedChat.tsx:37-41 | "П" with the key "K" makes `btoa` throw; with the key "Р" it encrypts. |
| Cipher.RandomKey | src/components/EncryptedChat.tsx:25-27 | A key has one character per draw, each from A–Z or 0–9. |
| Cipher.EncryptedChat.constructor | src/components/EncryptedChat.tsx:17-22 | Starts with no keys, no messages, key screen shown. |
| Cipher.EncryptedChat.GenerateKeys | src/components/EncryptedChat.tsx:24-32 | Keys of 16 and 32 characters from the draws, and the chat screen shown. |
| Cipher.EncryptedChat.SendMessage | src/components/EncryptedChat.tsx:59-74 | Needs non-blank text and recipient key. It encrypts with recipient key + private key; it throws exactly when `btoa` fails, and otherwise appends the sealed message and clears the input. |
| Cipher.EncryptedChat.StartOver | src/components/EncryptedChat.tsx:238-242 | Back to the key screen, with messages and recipient cleared and keys kept. |

## Left out

- Web Audio is not modelled: the analyser, the `requestAnimationFrame` loop and the ringtone oscillators. The speaking test is modelled as a predicate on one bin reading (`Voice.IsSpeaking`, `Voice.WithLocalSpeaking`).
- VoiceRoom.VoiceChat: the speaking loop in src/components/VoiceChat.tsx:57-72 reads the `isConnected` value captured before connecting, so it stops after its first pass. The model therefore keeps the local participant never speaking.
- The same stale capture in the combined chat's loop (src/components/UnifiedChat.tsx:102) is not modelled as a step. `Voice.WithLocalSpeaking` states what one pass would do.
- `SimplePeer` connections: the component never creates one. `peers` is only emptied on disconnect, and `destroy()` is not modelled.
- The component unmount cleanup (src/components/VoiceChat.tsx:108-112) is not modelled. It is the same cleanup as `Disconnect`.
- Timers are not modelled: `setInterval` is one `Tick` per second. The save spinner and the "saved" banner of `handleSave` (src/components/ProfileEdit.tsx:67-73) are not modelled, because they are only timed display flags.
- Locale date and time formatting (`toLocaleTimeString`, `toLocaleDateString`) is not modelled. `Direct.Age` only says which form applies.
- JSON parsing and serialisation of `localStorage` values are not modelled: storage holds parsed values.
- Clipboard copying, scrolling into view, `alert`, `console` and the `onAccept`/`onDecline` callbacks are not modelled: they do not change component state.
- The random emoji of the reaction button (src/components/UnifiedChat.tsx:379-381) is a parameter of `AddReaction`. The random avatar seed is a parameter of `HandleAvatarChange`.
- Asynchronous `getUserMedia` is not interleaved with other events: a join is one atomic step decided by `micGranted`.
- Input `onChange` setters are plain field writes and are not modelled as methods, except the room name.
- `setShowProfileEdit(true)` appears nowhere in src/pages/Index.tsx. The model keeps the flag and its "back" handler, but nothing sets it.
- Pages.IndexPage.HandleUpdateAvatar: nothing calls it. src/pages/Index.tsx:107 passes `onUpdateAvatar`, but UserProfile neither declares nor reads that prop. The model keeps the handler as written.
- Calls.VoiceCall.HandleDecline: hanging up during a call leaves `isInCall` set (src/components/VoiceCall.tsx:119-123), so the card keeps rendering. The model states this as written.
- AvatarCreator, UserProfile, Navigation and the static sections are not part of this model.
- Components are not modelled as being re-mounted: each class models one mounted instance.
