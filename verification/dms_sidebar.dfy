/** The direct-messages sidebar: the accepted friends and the incoming pending
    requests of the signed-in user, friend requests, accept and reject, the
    name search and the highlighted conversation. Friend records are
    directional: `userId` sent the request to `friendUserId`. */
module DMsSidebar {
  import opened Base
  import opened Text
  import opened Gateway
  import VoxenLayout

  /** The friends query: records the user sent that have been accepted. */
  function AcceptedOf(all: seq<Friend>, me: string): (r: seq<Friend>)
    ensures |r| <= |all|
    ensures forall f :: f in r <==> f in all && f.userId == me && f.status == "accepted"
  {
    Filter(all, (f: Friend) => f.userId == me && f.status == "accepted")
  }

  /** The pending query: records addressed to the user that are still pending. */
  function PendingFor(all: seq<Friend>, me: string): (r: seq<Friend>)
    ensures |r| <= |all|
    ensures forall f :: f in r <==> f in all && f.friendUserId == me && f.status == "pending"
  {
    Filter(all, (f: Friend) => f.friendUserId == me && f.status == "pending")
  }

  /** Accepting a request takes it out of the accepter's pending list. */
  lemma AcceptLeavesPending(all: seq<Friend>, id: string, me: string)
    ensures forall f :: f in PendingFor(WithFriendStatus(all, id, "accepted"), me) ==> f.id != id
  {
    var after := WithFriendStatus(all, id, "accepted");
    forall f | f in PendingFor(after, me) ensures f.id != id {
      var k :| 0 <= k < |after| && after[k] == f;
    }
  }

  /** An accepted request joins the friends list of the user who sent it. */
  lemma AcceptJoinsRequesterFriends(all: seq<Friend>, request: Friend)
    requires request in all
    ensures request.(status := "accepted") in AcceptedOf(WithFriendStatus(all, request.id, "accepted"), request.userId)
  {
    var after := WithFriendStatus(all, request.id, "accepted");
    var k :| 0 <= k < |all| && all[k] == request;
    assert after[k] == request.(status := "accepted");
  }

  /** ... and not the friends list of the user who accepted it, whose query only
      covers requests they sent themselves. */
  lemma {:induction false} AcceptSkipsAccepterFriends(all: seq<Friend>, id: string, me: string)
    requires forall f :: f in all && f.id == id ==> f.userId != me
    ensures AcceptedOf(WithFriendStatus(all, id, "accepted"), me) == AcceptedOf(all, me)
  {
    if all != [] {
      assert WithFriendStatus(all, id, "accepted")[1..] == WithFriendStatus(all[1..], id, "accepted");
      AcceptSkipsAccepterFriends(all[1..], id, me);
    }
  }

  /** A rejected request is gone from every user's pending and friends lists. */
  lemma RejectRemovesEverywhere(all: seq<Friend>, id: string, me: string)
    ensures forall f :: f in PendingFor(WithoutFriend(all, id), me) ==> f.id != id
    ensures forall f :: f in AcceptedOf(WithoutFriend(all, id), me) ==> f.id != id
  {
  }

  /** `friend.friend_name?.toLowerCase().includes(query.toLowerCase())`: a
      friend without a name never matches. */
  predicate MatchesQuery(f: Friend, query: string)
    ensures f.friendName.None? ==> !MatchesQuery(f, query)
    ensures f.friendName.Some? && (query == "" || query == f.friendName.value) ==> MatchesQuery(f, query)
  {
    f.friendName.Some? && Contains(ToLower(f.friendName.value), ToLower(query))
  }

  /** The friends shown under the search box, in their original order. */
  function FilteredFriends(friends: seq<Friend>, query: string): (r: seq<Friend>)
    ensures |r| <= |friends|
    ensures forall f :: f in r <==> f in friends && MatchesQuery(f, query)
  {
    Filter(friends, (f: Friend) => MatchesQuery(f, query))
  }

  /** The empty query occurs in every name. */
  lemma ContainsEmpty(s: string)
    ensures Contains(s, "")
  {
  }

  /** An empty search shows every named friend. */
  lemma {:induction false} EmptyQueryShowsNamed(friends: seq<Friend>)
    requires forall f :: f in friends ==> f.friendName.Some?
    ensures FilteredFriends(friends, "") == friends
  {
    if friends != [] {
      ContainsEmpty(ToLower(friends[0].friendName.value));
      EmptyQueryShowsNamed(friends[1..]);
    }
  }

  /** Queries that differ only in letter case show the same friends. */
  lemma {:induction false} SearchIgnoresCase(friends: seq<Friend>, q1: string, q2: string)
    requires ToLower(q1) == ToLower(q2)
    ensures FilteredFriends(friends, q1) == FilteredFriends(friends, q2)
  {
    if friends != [] {
      SearchIgnoresCase(friends[1..], q1, q2);
    }
  }

  /** Searching for a friend's full name finds that friend. */
  lemma NameFindsFriend(friends: seq<Friend>, f: Friend)
    requires f in friends && f.friendName.Some?
    ensures f in FilteredFriends(friends, f.friendName.value)
  {
    ContainsAt(ToLower(f.friendName.value), ToLower(f.friendName.value), 0);
  }

  /** `friend.friend_name || 'Unknown User'`, the name passed on selection. */
  function ShownName(f: Friend): (n: string)
    ensures n != []
    ensures Truthy(f.friendName) ==> n == f.friendName.value
    ensures !Truthy(f.friendName) ==> n == "Unknown User"
  {
    OrElse(f.friendName, "Unknown User")
  }

  /** A row is highlighted exactly when the selected conversation is its friend's. */
  predicate IsHighlighted(f: Friend, selectedDM: string)
    ensures IsHighlighted(f, selectedDM) <==> selectedDM == f.friendUserId
  {
    selectedDM == f.friendUserId
  }

  /** Clicking a row selects that friend's conversation in the layout, which
      highlights the row; rows of other friends are not highlighted. */
  lemma ClickHighlightsRow(n: VoxenLayout.Nav, f: Friend, g: Friend)
    ensures var m := VoxenLayout.AfterSelectDM(n, f.friendUserId, ShownName(f));
      IsHighlighted(f, m.dm) && (IsHighlighted(g, m.dm) <==> g.friendUserId == f.friendUserId)
  {
  }

  /** The sidebar's state. */
  class FriendsPanel {
    var friends: seq<Friend>
    var pendingRequests: seq<Friend>
    var searchQuery: string
    var friendEmail: string
    var isAddingFriend: bool

    constructor ()
      ensures friends == [] && pendingRequests == [] && searchQuery == "" && friendEmail == "" && !isAddingFriend
    {
      friends, pendingRequests := [], [];
      searchQuery, friendEmail := "", "";
      isAddingFriend := false;
    }

    /** The friends the list shows for the current search. */
    function Shown(): seq<Friend>
      reads this
    {
      FilteredFriends(friends, searchQuery)
    }

    /** `loadFriends`: the auth call (1) then the friends query (2). */
    method LoadFriends(store: Store, me: User, okCalls: nat)
      modifies this
      ensures okCalls >= 2 ==> friends == AcceptedOf(store.db.friends, me.id)
      ensures okCalls < 2 ==> friends == old(friends)
      ensures pendingRequests == old(pendingRequests) && searchQuery == old(searchQuery)
      ensures friendEmail == old(friendEmail) && isAddingFriend == old(isAddingFriend)
    {
      if okCalls >= 2 {
        friends := AcceptedOf(store.db.friends, me.id);
      }
    }

    /** `loadPendingRequests`: the auth call (1) then the pending query (2). */
    method LoadPendingRequests(store: Store, me: User, okCalls: nat)
      modifies this
      ensures okCalls >= 2 ==> pendingRequests == PendingFor(store.db.friends, me.id)
      ensures okCalls < 2 ==> pendingRequests == old(pendingRequests)
      ensures friends == old(friends) && searchQuery == old(searchQuery)
      ensures friendEmail == old(friendEmail) && isAddingFriend == old(isAddingFriend)
    {
      if okCalls >= 2 {
        pendingRequests := PendingFor(store.db.friends, me.id);
      }
    }

    /** `sendFriendRequest`: a blank address does nothing. Otherwise the auth
        call (1) and one create of a pending request from the user (2) follow;
        the address does not reach the record, whose recipient is the
        placeholder `targetId`. The input is cleared on success and
        `isAddingFriend` is false again on every path. */
    method SendFriendRequest(store: Store, me: User, okCalls: nat, requestId: string, targetId: string) returns (sent: bool)
      modifies this, store
      ensures sent <==> !IsBlank(old(friendEmail)) && okCalls >= 2
      ensures sent ==> store.db == old(store.db).(friends := old(store.db.friends) + [Friend(requestId, me.id, targetId, "pending", None)])
      ensures sent ==> friendEmail == ""
      ensures !sent ==> store.db == old(store.db) && friendEmail == old(friendEmail)
      ensures IsBlank(old(friendEmail)) ==> isAddingFriend == old(isAddingFriend)
      ensures !IsBlank(old(friendEmail)) ==> !isAddingFriend
      ensures friends == old(friends) && pendingRequests == old(pendingRequests) && searchQuery == old(searchQuery)
    {
      sent := false;
      if IsBlank(friendEmail) { return; }
      isAddingFriend := true;
      if okCalls >= 2 {
        store.CreateFriend(Friend(requestId, me.id, targetId, "pending", None));
        friendEmail := "";
        sent := true;
      }
      isAddingFriend := false;
    }

    /** `acceptFriendRequest`: one update of the record's status; when it
        succeeds both lists are reloaded. */
    method AcceptFriendRequest(store: Store, me: User, requestId: string, okCalls: nat)
      modifies this, store
      ensures okCalls >= 1 ==>
        && store.db == old(store.db).(friends := WithFriendStatus(old(store.db.friends), requestId, "accepted"))
        && friends == AcceptedOf(store.db.friends, me.id)
        && pendingRequests == PendingFor(store.db.friends, me.id)
      ensures okCalls == 0 ==> store.db == old(store.db) && friends == old(friends) && pendingRequests == old(pendingRequests)
      ensures searchQuery == old(searchQuery) && friendEmail == old(friendEmail) && isAddingFriend == old(isAddingFriend)
    {
      if okCalls == 0 { return; }
      store.UpdateFriendStatus(requestId, "accepted");
      LoadFriends(store, me, 2);
      LoadPendingRequests(store, me, 2);
    }

    /** `rejectFriendRequest`: one delete; when it succeeds the pending list is
        reloaded. */
    method RejectFriendRequest(store: Store, me: User, requestId: string, okCalls: nat)
      modifies this, store
      ensures okCalls >= 1 ==>
        && store.db == old(store.db).(friends := WithoutFriend(old(store.db.friends), requestId))
        && pendingRequests == PendingFor(store.db.friends, me.id)
      ensures okCalls == 0 ==> store.db == old(store.db) && pendingRequests == old(pendingRequests)
      ensures friends == old(friends) && searchQuery == old(searchQuery)
      ensures friendEmail == old(friendEmail) && isAddingFriend == old(isAddingFriend)
    {
      if okCalls == 0 { return; }
      store.DeleteFriend(requestId);
      LoadPendingRequests(store, me, 2);
    }
  }
}
