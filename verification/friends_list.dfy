/**
 * The friends panel: the friend list, incoming and outgoing requests and
 * suggestions, with accepting, declining, sending and removing, the search
 * filter and the presence labels.
 */
module Friends {
  import opened Text
  import opened Optional
  import Lists

  /** A friend; `status` is the presence text ("online", "away", "offline"). */
  datatype Friend = Friend(
    id: JsString,
    name: JsString,
    avatar: JsString,
    status: JsString,
    statusText: Option<JsString>,
    mutualFriends: Option<int>)

  datatype RequestKind = Incoming | Outgoing

  /** A friend request; `sentAt` is a `Date.now()` reading. */
  datatype FriendRequest = FriendRequest(
    id: JsString,
    userId: JsString,
    name: JsString,
    avatar: JsString,
    mutualFriends: int,
    sentAt: int,
    kind: RequestKind)

  const OnlineStatus: JsString := Lit("online")
  const AwayStatus: JsString := Lit("away")
  const OfflineStatus: JsString := Lit("offline")

  /** The first request with the given id, as `requests.find` returns it. */
  function RequestById(requests: seq<FriendRequest>, id: JsString): (r: Option<FriendRequest>)
    ensures r.None? <==> forall q | q in requests :: q.id != id
    ensures r.Some? ==> r.value in requests && r.value.id == id
    ensures r.Some? ==> exists i | 0 <= i < |requests| ::
                          requests[i] == r.value && forall j | 0 <= j < i :: requests[j].id != id
  {
    Lists.Find(requests, (q: FriendRequest) => q.id == id)
  }

  /** The first suggestion with the given id. */
  function SuggestionById(suggestions: seq<Friend>, id: JsString): (r: Option<Friend>)
    ensures r.None? <==> forall s | s in suggestions :: s.id != id
    ensures r.Some? ==> r.value in suggestions && r.value.id == id
  {
    Lists.Find(suggestions, (s: Friend) => s.id == id)
  }

  /** `requests.filter(r => r.id !== id)`: every other request. */
  function RequestsWithout(requests: seq<FriendRequest>, id: JsString): (r: seq<FriendRequest>)
    ensures forall q | q in r :: q in requests && q.id != id
    ensures forall q | q in requests && q.id != id :: q in r
  {
    Lists.Filter(requests, (q: FriendRequest) => q.id != id)
  }

  /**
   * Dropping requests by id keeps the others in their order, is the identity
   * for an unknown id and shortens the list for a known one.
   */
  lemma RequestsWithoutExact(requests: seq<FriendRequest>, id: JsString)
    ensures Lists.IsSubsequence(RequestsWithout(requests, id), requests)
    ensures (forall q | q in requests :: q.id != id) ==> RequestsWithout(requests, id) == requests
    ensures (exists q | q in requests :: q.id == id) ==> |RequestsWithout(requests, id)| < |requests|
  {
    var keep := (q: FriendRequest) => q.id != id;
    Lists.FilterIsSubsequence(requests, keep);
    if forall q | q in requests :: q.id != id {
      Lists.FilterKeepsAll(requests, keep);
    }
    Lists.FilterPartition(requests, keep, (q: FriendRequest) => q.id == id);
    Lists.FilterNonEmpty(requests, (q: FriendRequest) => q.id == id);
  }

  /** `friends.filter(f => f.id !== id)`: every other entry. */
  function FriendsWithout(friends: seq<Friend>, id: JsString): (r: seq<Friend>)
    ensures forall f | f in r :: f in friends && f.id != id
    ensures forall f | f in friends && f.id != id :: f in r
  {
    Lists.Filter(friends, (f: Friend) => f.id != id)
  }

  /**
   * Dropping entries by id keeps the others in their order, is the identity
   * for an unknown id and shortens the list for a known one.
   */
  lemma FriendsWithoutExact(friends: seq<Friend>, id: JsString)
    ensures Lists.IsSubsequence(FriendsWithout(friends, id), friends)
    ensures (forall f | f in friends :: f.id != id) ==> FriendsWithout(friends, id) == friends
    ensures (exists f | f in friends :: f.id == id) ==> |FriendsWithout(friends, id)| < |friends|
  {
    var keep := (f: Friend) => f.id != id;
    Lists.FilterIsSubsequence(friends, keep);
    if forall f | f in friends :: f.id != id {
      Lists.FilterKeepsAll(friends, keep);
    }
    Lists.FilterPartition(friends, keep, (f: Friend) => f.id == id);
    Lists.FilterNonEmpty(friends, (f: Friend) => f.id == id);
  }

  /** The friend an accepted request becomes: online, with the request's details. */
  function Befriend(request: FriendRequest): (f: Friend)
    ensures f.id == request.userId && f.status == OnlineStatus
    ensures f.name == request.name && f.avatar == request.avatar
    ensures f.mutualFriends == Some(request.mutualFriends) && f.statusText.None?
  {
    Friend(request.userId, request.name, request.avatar, OnlineStatus, None, Some(request.mutualFriends))
  }

  /** The outgoing request a suggestion becomes; `suggestion.mutualFriends || 0`. */
  function RequestTo(suggestion: Friend, now: nat): (r: FriendRequest)
    ensures r.userId == suggestion.id && r.name == suggestion.name && r.avatar == suggestion.avatar
    ensures forall i | 0 <= i < |r.id| :: IsDigit(r.id[i])
    ensures r.kind == Outgoing && r.sentAt == now && DigitsValue(r.id) == now
    ensures suggestion.mutualFriends.None? ==> r.mutualFriends == 0
    ensures suggestion.mutualFriends.Some? ==> r.mutualFriends == suggestion.mutualFriends.value
  {
    var mutual := match suggestion.mutualFriends case None => 0 case Some(n) => n;
    FriendRequest(Decimal(now), suggestion.id, suggestion.name, suggestion.avatar, mutual, now, Outgoing)
  }

  const GreenDot: JsString := Lit("bg-green-500")
  const YellowDot: JsString := Lit("bg-yellow-500")
  const GrayDot: JsString := Lit("bg-gray-400")

  /** `getStatusColor`: "offline" and any other text fall to the same grey. */
  function StatusColor(status: JsString): (c: JsString)
    ensures c == GreenDot <==> status == OnlineStatus
    ensures c == YellowDot <==> status == AwayStatus
    ensures c == GrayDot <==> status != OnlineStatus && status != AwayStatus
  {
    assert GreenDot[5] != GrayDot[5] && YellowDot[3] != GrayDot[3] && GreenDot[3] != YellowDot[3];
    if status == OnlineStatus then GreenDot
    else if status == AwayStatus then YellowDot
    else GrayDot
  }

  const OnlineText: JsString := Lit("В сети")
  const AwayText: JsString := Lit("Нет на месте")
  const OfflineText: JsString := Lit("Не в сети")

  /** `getStatusText`: "offline" and any other text read as "not online". */
  function StatusText(status: JsString): (t: JsString)
    ensures t == OnlineText <==> status == OnlineStatus
    ensures t == AwayText <==> status == AwayStatus
    ensures t == OfflineText <==> status != OnlineStatus && status != AwayStatus
  {
    assert OnlineText[0] != AwayText[0] && OnlineText[1] != OfflineText[1] && AwayText[2] != OfflineText[2];
    if status == OnlineStatus then OnlineText
    else if status == AwayStatus then AwayText
    else OfflineText
  }

  /** The offline status shares the default branch of both mappings. */
  lemma OfflineIsDefault(status: JsString)
    requires status != OnlineStatus && status != AwayStatus
    ensures StatusColor(status) == StatusColor(OfflineStatus)
    ensures StatusText(status) == StatusText(OfflineStatus)
  {
    assert OfflineStatus[1] != OnlineStatus[1] && OfflineStatus[0] != AwayStatus[0];
  }

  /**
   * `filteredFriends`: the friends whose lowered name contains the lowered
   * query; `lower` stands for `toLowerCase`.
   */
  function FilteredFriends(friends: seq<Friend>, query: JsString, lower: JsString -> JsString): (r: seq<Friend>)
    ensures forall f | f in r :: f in friends && Includes(lower(f.name), lower(query))
    ensures forall f | f in friends && Includes(lower(f.name), lower(query)) :: f in r
  {
    Lists.Filter(friends, (f: Friend) => Includes(lower(f.name), lower(query)))
  }

  /** The search keeps the friends' order, and an empty query shows them all. */
  lemma FilteredFriendsLaws(friends: seq<Friend>, query: JsString, lower: JsString -> JsString)
    ensures Lists.IsSubsequence(FilteredFriends(friends, query, lower), friends)
    ensures lower(query) == [] ==> FilteredFriends(friends, query, lower) == friends
  {
    var keep := (f: Friend) => Includes(lower(f.name), lower(query));
    Lists.FilterIsSubsequence(friends, keep);
    if lower(query) == [] {
      forall f | f in friends
        ensures keep(f)
      {
        IncludesEmpty(lower(f.name));
      }
      Lists.FilterKeepsAll(friends, keep);
    }
  }

  /** With no search typed (`"".toLowerCase()` is `""`), every friend is listed. */
  lemma EmptySearchListsAllFriends(friends: seq<Friend>, lower: JsString -> JsString)
    requires lower([]) == []
    ensures FilteredFriends(friends, [], lower) == friends
  {
    FilteredFriendsLaws(friends, [], lower);
  }

  /** The "incoming" tab. */
  function IncomingRequests(requests: seq<FriendRequest>): (r: seq<FriendRequest>)
    ensures forall q | q in r :: q in requests && q.kind == Incoming
    ensures forall q | q in requests && q.kind == Incoming :: q in r
  {
    Lists.Filter(requests, (q: FriendRequest) => q.kind == Incoming)
  }

  /** The "outgoing" tab. */
  function OutgoingRequests(requests: seq<FriendRequest>): (r: seq<FriendRequest>)
    ensures forall q | q in r :: q in requests && q.kind == Outgoing
    ensures forall q | q in requests && q.kind == Outgoing :: q in r
  {
    Lists.Filter(requests, (q: FriendRequest) => q.kind == Outgoing)
  }

  /** The two tabs split the requests: every request is in exactly one of them. */
  lemma RequestTabsPartition(requests: seq<FriendRequest>)
    ensures |IncomingRequests(requests)| + |OutgoingRequests(requests)| == |requests|
    ensures forall q | q in requests :: q in IncomingRequests(requests) <==> q !in OutgoingRequests(requests)
  {
    Lists.FilterPartition(requests, (q: FriendRequest) => q.kind == Incoming,
                          (q: FriendRequest) => q.kind == Outgoing);
  }

  /** The panel's state; every list starts empty. */
  class FriendsList {
    var friends: seq<Friend>
    var requests: seq<FriendRequest>
    var searchQuery: JsString
    var addFriendQuery: JsString
    var suggestions: seq<Friend>

    constructor ()
      ensures friends == [] && requests == [] && suggestions == []
      ensures searchQuery == [] && addFriendQuery == []
    {
      friends, requests, suggestions := [], [], [];
      searchQuery, addFriendQuery := [], [];
    }

    /**
     * `acceptRequest`: an unknown id changes nothing; a known one adds the
     * sender as an online friend and drops every request with that id.
     */
    method AcceptRequest(requestId: JsString)
      modifies this
      ensures var request := RequestById(old(requests), requestId);
              if request.None? then friends == old(friends) && requests == old(requests)
              else
                && friends == old(friends) + [Befriend(request.value)]
                && requests == RequestsWithout(old(requests), requestId)
      ensures suggestions == old(suggestions) && searchQuery == old(searchQuery)
      ensures addFriendQuery == old(addFriendQuery)
    {
      var request := RequestById(requests, requestId);
      if request.Some? {
        var newFriend := Befriend(request.value);
        friends := friends + [newFriend];
        requests := RequestsWithout(requests, requestId);
      }
    }

    /** `declineRequest`: drop every request with the id, keeping the rest in order. */
    method DeclineRequest(requestId: JsString)
      modifies this
      ensures requests == RequestsWithout(old(requests), requestId)
      ensures friends == old(friends) && suggestions == old(suggestions)
      ensures searchQuery == old(searchQuery) && addFriendQuery == old(addFriendQuery)
    {
      requests := RequestsWithout(requests, requestId);
    }

    /**
     * `sendFriendRequest`: an unknown suggestion changes nothing; a known one
     * becomes one outgoing request at the end and leaves the suggestions.
     * `now` is the `Date.now()` reading.
     */
    method SendFriendRequest(userId: JsString, now: nat)
      modifies this
      ensures var suggestion := SuggestionById(old(suggestions), userId);
              if suggestion.None? then requests == old(requests) && suggestions == old(suggestions)
              else
                && requests == old(requests) + [RequestTo(suggestion.value, now)]
                && suggestions == FriendsWithout(old(suggestions), userId)
      ensures friends == old(friends) && searchQuery == old(searchQuery)
      ensures addFriendQuery == old(addFriendQuery)
    {
      var suggestion := SuggestionById(suggestions, userId);
      if suggestion.Some? {
        var newRequest := RequestTo(suggestion.value, now);
        requests := requests + [newRequest];
        suggestions := FriendsWithout(suggestions, userId);
      }
    }

    /** `removeFriend`: drop every friend with the id. */
    method RemoveFriend(friendId: JsString)
      modifies this
      ensures friends == FriendsWithout(old(friends), friendId)
      ensures requests == old(requests) && suggestions == old(suggestions)
      ensures searchQuery == old(searchQuery) && addFriendQuery == old(addFriendQuery)
    {
      friends := FriendsWithout(friends, friendId);
    }
  }
}
