/**
 * The message log shared in shape by the two channel chats: posting a
 * message and counting emoji reactions on one message.
 */
module ChatLog {
  import opened Text

  /** One emoji under a message and how many times it was clicked. */
  datatype Reaction = Reaction(emoji: JsString, count: int)

  /** A channel message; `timestamp` is a `Date.now()` reading. */
  datatype ChatMessage = ChatMessage(
    id: JsString,
    author: JsString,
    avatar: JsString,
    content: JsString,
    timestamp: int,
    reactions: seq<Reaction>)

  /** The avatar of every message typed in: "😊", U+1F60A as its surrogate pair. */
  const SmileAvatar: JsString := [0xD83D, 0xDE0A]

  /** The message `sendMessage` posts: id `Date.now().toString()`, the untrimmed text, no reactions. */
  function Posted(now: nat, author: JsString, content: JsString): (m: ChatMessage)
    ensures forall i | 0 <= i < |m.id| :: IsDigit(m.id[i])
    ensures DigitsValue(m.id) == now && m.timestamp == now
    ensures m.author == author && m.avatar == SmileAvatar && m.content == content && m.reactions == []
  {
    ChatMessage(Decimal(now), author, SmileAvatar, content, now, [])
  }

  /** `reactions.find(r => r.emoji === emoji)` finds something. */
  predicate HasEmoji(reactions: seq<Reaction>, emoji: JsString) {
    exists i | 0 <= i < |reactions| :: reactions[i].emoji == emoji
  }

  /** No emoji appears twice under a message. */
  predicate EmojisDistinct(reactions: seq<Reaction>) {
    forall i, j | 0 <= i < j < |reactions| :: reactions[i].emoji != reactions[j].emoji
  }

  /**
   * One click on `emoji`: an emoji already present has every entry of it
   * counted up by one, the list keeping its length and order; a new emoji
   * is appended with count 1.
   */
  function React(reactions: seq<Reaction>, emoji: JsString): (r: seq<Reaction>)
    ensures HasEmoji(reactions, emoji) ==> |r| == |reactions|
    ensures HasEmoji(reactions, emoji) ==>
              forall i | 0 <= i < |r| ::
                && r[i].emoji == reactions[i].emoji
                && r[i].count == reactions[i].count + (if reactions[i].emoji == emoji then 1 else 0)
    ensures !HasEmoji(reactions, emoji) ==> r == reactions + [Reaction(emoji, 1)]
    ensures HasEmoji(r, emoji)
  {
    if HasEmoji(reactions, emoji) then
      seq(|reactions|, i requires 0 <= i < |reactions| =>
        if reactions[i].emoji == emoji then reactions[i].(count := reactions[i].count + 1) else reactions[i])
    else
      var r := reactions + [Reaction(emoji, 1)];
      assert r[|reactions|].emoji == emoji;
      r
  }

  /** The clicks counted under a message. */
  function Total(reactions: seq<Reaction>): int {
    if reactions == [] then 0 else Total(reactions[..|reactions| - 1]) + reactions[|reactions| - 1].count
  }

  /** How many entries carry `emoji`. */
  function Occurrences(reactions: seq<Reaction>, emoji: JsString): (n: nat)
    ensures n <= |reactions|
  {
    if reactions == [] then 0
    else Occurrences(reactions[..|reactions| - 1], emoji) + (if reactions[|reactions| - 1].emoji == emoji then 1 else 0)
  }

  /** An emoji held once by a list without duplicates. */
  lemma {:induction false} DistinctOccursOnce(reactions: seq<Reaction>, emoji: JsString)
    requires EmojisDistinct(reactions)
    ensures Occurrences(reactions, emoji) == (if HasEmoji(reactions, emoji) then 1 else 0)
  {
    if reactions != [] {
      var init := reactions[..|reactions| - 1];
      DistinctOccursOnce(init, emoji);
      if HasEmoji(reactions, emoji) && reactions[|reactions| - 1].emoji != emoji {
        var i :| 0 <= i < |reactions| && reactions[i].emoji == emoji;
        assert init[i].emoji == emoji;
      }
      if HasEmoji(init, emoji) {
        var i :| 0 <= i < |init| && init[i].emoji == emoji;
        assert reactions[i].emoji == emoji;
      }
    }
  }

  /** Counting up every entry of `emoji` raises the total by the number of such entries. */
  lemma {:induction false} TotalAfterCountingUp(reactions: seq<Reaction>, r: seq<Reaction>, emoji: JsString)
    requires |r| == |reactions|
    requires forall i | 0 <= i < |r| ::
               && r[i].emoji == reactions[i].emoji
               && r[i].count == reactions[i].count + (if reactions[i].emoji == emoji then 1 else 0)
    ensures Total(r) == Total(reactions) + Occurrences(reactions, emoji)
  {
    if reactions != [] {
      var n := |reactions| - 1;
      TotalAfterCountingUp(reactions[..n], r[..n], emoji);
    }
  }

  lemma TotalAppend(reactions: seq<Reaction>, last: Reaction)
    ensures Total(reactions + [last]) == Total(reactions) + last.count
  {
    assert (reactions + [last])[..|reactions|] == reactions;
  }

  /** A click keeps the emojis of a message distinct and adds exactly one to its total. */
  lemma ReactKeepsDistinctAndCountsOne(reactions: seq<Reaction>, emoji: JsString)
    requires EmojisDistinct(reactions)
    ensures EmojisDistinct(React(reactions, emoji))
    ensures Total(React(reactions, emoji)) == Total(reactions) + 1
  {
    var r := React(reactions, emoji);
    if HasEmoji(reactions, emoji) {
      TotalAfterCountingUp(reactions, r, emoji);
      DistinctOccursOnce(reactions, emoji);
    } else {
      TotalAppend(reactions, Reaction(emoji, 1));
      forall i, j | 0 <= i < j < |r|
        ensures r[i].emoji != r[j].emoji
      {
        if j == |reactions| {
          assert r[i] == reactions[i];
        } else {
          assert r[i] == reactions[i] && r[j] == reactions[j];
        }
      }
    }
  }

  /**
   * `addReaction(messageId, emoji)`: the messages with that id get the
   * click, every other message is left as it was.
   */
  function AddReaction(messages: seq<ChatMessage>, messageId: JsString, emoji: JsString): (r: seq<ChatMessage>)
    ensures |r| == |messages|
    ensures forall i | 0 <= i < |r| && messages[i].id != messageId :: r[i] == messages[i]
    ensures forall i | 0 <= i < |r| && messages[i].id == messageId ::
              r[i] == messages[i].(reactions := React(messages[i].reactions, emoji))
  {
    seq(|messages|, i requires 0 <= i < |messages| =>
      if messages[i].id == messageId then messages[i].(reactions := React(messages[i].reactions, emoji))
      else messages[i])
  }

  /** Every message's emojis stay distinct, and each matched message gains exactly one click. */
  lemma AddReactionKeepsDistinct(messages: seq<ChatMessage>, messageId: JsString, emoji: JsString)
    requires forall i | 0 <= i < |messages| :: EmojisDistinct(messages[i].reactions)
    ensures forall i | 0 <= i < |messages| :: EmojisDistinct(AddReaction(messages, messageId, emoji)[i].reactions)
    ensures forall i | 0 <= i < |messages| && messages[i].id == messageId ::
              Total(AddReaction(messages, messageId, emoji)[i].reactions) == Total(messages[i].reactions) + 1
  {
    forall i | 0 <= i < |messages|
      ensures EmojisDistinct(AddReaction(messages, messageId, emoji)[i].reactions)
      ensures messages[i].id == messageId ==>
                Total(AddReaction(messages, messageId, emoji)[i].reactions) == Total(messages[i].reactions) + 1
    {
      ReactKeepsDistinctAndCountsOne(messages[i].reactions, emoji);
    }
  }

  /** A click on an id no message has changes nothing. */
  lemma AddReactionUnknownId(messages: seq<ChatMessage>, messageId: JsString, emoji: JsString)
    requires forall i | 0 <= i < |messages| :: messages[i].id != messageId
    ensures AddReaction(messages, messageId, emoji) == messages
  {
  }
}
