/**
 * The friends channel: the friends, pending friend requests and game
 * invites of the signed-in user, updated by the events of the realtime
 * channel, and the combined notification list derived from them.
 *
 * Each event handler is a function from the old state to the new state,
 * or to the error it throws. Toasts, logging and navigation are left out.
 */
module FriendsChannel {
  import opened Results

  datatype FriendInfo = FriendInfo(username: string, firstName: Option<string>, imageUrl: string, id: string)

  datatype Invite = Invite(sender: FriendInfo, gameId: string)

  datatype PendingFriendRequest = PendingFriendRequest(requestId: int, imageUrl: string, username: string,
                                                       firstName: Option<string>)

  datatype FriendsState = FriendsState(activeFriends: seq<FriendInfo>,
                                       pendingFriendRequests: seq<PendingFriendRequest>,
                                       gameInvites: seq<Invite>)

  /** The payload of a channel event; the optional fields may be missing. */
  datatype EventData = EventData(username: string, firstName: Option<string>, imageUrl: string, id: string,
                                 requestId: Option<int>, gameId: Option<string>, friendId: Option<string>)

  // ---------------------------------------------------------------------
  // Filtering, as `Array.prototype.filter`.

  function Filter<T>(s: seq<T>, keep: T -> bool): (r: seq<T>)
    ensures |r| <= |s|
    decreases |s|
  {
    if s == [] then []
    else if keep(s[0]) then [s[0]] + Filter(s[1..], keep)
    else Filter(s[1..], keep)
  }

  /** An element survives the filter iff it was there and satisfies the predicate. */
  lemma {:induction false} FilterMembership<T>(s: seq<T>, keep: T -> bool, x: T)
    ensures x in Filter(s, keep) <==> x in s && keep(x)
    decreases |s|
  {
    if s != [] {
      FilterMembership(s[1..], keep, x);
      assert s == [s[0]] + s[1..];
    }
  }

  lemma FilterMembershipAll<T>(s: seq<T>, keep: T -> bool)
    ensures forall x :: x in Filter(s, keep) <==> x in s && keep(x)
  {
    forall x ensures x in Filter(s, keep) <==> x in s && keep(x)
    {
      FilterMembership(s, keep, x);
    }
  }

  /** Filtering commutes with concatenation, so the survivors keep their order. */
  lemma {:induction false} FilterAppend<T>(a: seq<T>, b: seq<T>, keep: T -> bool)
    ensures Filter(a + b, keep) == Filter(a, keep) + Filter(b, keep)
    decreases |a|
  {
    if a != [] {
      assert (a + b)[1..] == a[1..] + b;
      FilterAppend(a[1..], b, keep);
    } else {
      assert a + b == b;
    }
  }

  /** A sequence in which every element survives is unchanged. */
  lemma {:induction false} FilterKeepsAll<T>(s: seq<T>, keep: T -> bool)
    ensures (forall i :: 0 <= i < |s| ==> keep(s[i])) ==> Filter(s, keep) == s
    decreases |s|
  {
    if s != [] {
      FilterKeepsAll(s[1..], keep);
      if forall i :: 0 <= i < |s| ==> keep(s[i]) {
        assert forall i :: 0 <= i < |s[1..]| ==> keep(s[1..][i]) by {
          forall i | 0 <= i < |s[1..]| ensures keep(s[1..][i]) { assert s[1..][i] == s[i + 1]; }
        }
        assert keep(s[0]);
      }
    }
  }

  // ---------------------------------------------------------------------
  // The event handlers.

  /** The friend an event describes. */
  function FriendOf(data: EventData): FriendInfo
  {
    FriendInfo(data.username, data.firstName, data.imageUrl, data.id)
  }

  /**
   * "friend-added": every pending request from that username is dropped,
   * the others stay in order, and the new friend is appended.
   */
  function FriendAdded(st: FriendsState, data: EventData): (r: FriendsState)
    ensures r.activeFriends == st.activeFriends + [FriendOf(data)]
    ensures r.pendingFriendRequests == Filter(st.pendingFriendRequests, (q: PendingFriendRequest) => q.username != data.username)
    ensures forall q :: q in r.pendingFriendRequests
                        <==> q in st.pendingFriendRequests && q.username != data.username
    ensures r.gameInvites == st.gameInvites
  {
    var keep := (q: PendingFriendRequest) => q.username != data.username;
    FilterMembershipAll(st.pendingFriendRequests, keep);
    FriendsState(st.activeFriends + [FriendOf(data)], Filter(st.pendingFriendRequests, keep), st.gameInvites)
  }

  /** "friend-deleted": every friend with that id is removed, and only those; the others stay in order. */
  function FriendDeleted(st: FriendsState, data: EventData): (r: FriendsState)
    ensures r.activeFriends == Filter(st.activeFriends, (f: FriendInfo) => f.id != data.id)
    ensures forall f :: f in r.activeFriends <==> f in st.activeFriends && f.id != data.id
    ensures (forall i :: 0 <= i < |st.activeFriends| ==> st.activeFriends[i].id != data.id)
            ==> r.activeFriends == st.activeFriends
    ensures r.pendingFriendRequests == st.pendingFriendRequests && r.gameInvites == st.gameInvites
  {
    var keep := (f: FriendInfo) => f.id != data.id;
    FilterMembershipAll(st.activeFriends, keep);
    FilterKeepsAll(st.activeFriends, keep);
    FriendsState(Filter(st.activeFriends, keep), st.pendingFriendRequests, st.gameInvites)
  }

  /** JavaScript truthiness of an optional number: missing or 0 is falsy. */
  predicate TruthyNumber(n: Option<int>)
  {
    n.Some? && n.value != 0
  }

  /** JavaScript truthiness of an optional string: missing or empty is falsy. */
  predicate TruthyString(s: Option<string>)
  {
    s.Some? && s.value != ""
  }

  /** "friend-request-pending": a request without a truthy id is an error; otherwise it is appended. */
  function FriendRequestPending(st: FriendsState, data: EventData): (r: Result<FriendsState, string>)
    ensures !TruthyNumber(data.requestId) <==> r == Err("No request id found")
    ensures r.Ok? ==> r.value == st.(pendingFriendRequests := st.pendingFriendRequests
                      + [PendingFriendRequest(data.requestId.value, data.imageUrl, data.username, data.firstName)])
  {
    if !TruthyNumber(data.requestId) then Err("No request id found")
    else
      var request := PendingFriendRequest(data.requestId.value, data.imageUrl, data.username, data.firstName);
      Ok(st.(pendingFriendRequests := st.pendingFriendRequests + [request]))
  }

  /** "invite-sent": an invite without a game id is an error; otherwise it is appended. */
  function InviteSent(st: FriendsState, data: EventData): (r: Result<FriendsState, string>)
    ensures data.gameId.None? <==> r == Err("No game id found")
    ensures r.Ok? ==> r.value == st.(gameInvites := st.gameInvites + [Invite(FriendOf(data), data.gameId.value)])
  {
    if data.gameId.None? then Err("No game id found")
    else Ok(st.(gameInvites := st.gameInvites + [Invite(FriendOf(data), data.gameId.value)]))
  }

  /** "invite-accepted": only checks its payload; the state never changes. */
  function InviteAccepted(st: FriendsState, data: EventData): (r: Result<FriendsState, string>)
    ensures !TruthyString(data.friendId) || !TruthyString(data.gameId)
            <==> r == Err("No friend id or game id found")
    ensures r.Ok? ==> r.value == st
  {
    if !TruthyString(data.friendId) || !TruthyString(data.gameId) then Err("No friend id or game id found")
    else Ok(st)
  }

  // ---------------------------------------------------------------------
  // The notification list.

  datatype NotificationType = PendingFriendRequestType | GameInviteType

  /** A notification: a pending request or an invite, with its fields kept, tagged with its type. */
  datatype Notification = RequestNotification(request: PendingFriendRequest) | InviteNotification(invite: Invite)
  {
    function Type(): NotificationType
    {
      if RequestNotification? then PendingFriendRequestType else GameInviteType
    }
  }

  /** The tagged pending requests followed by the tagged invites. */
  function AllNotifications(st: FriendsState): (r: seq<Notification>)
    ensures |r| == |st.pendingFriendRequests| + |st.gameInvites|
  {
    seq(|st.pendingFriendRequests|, i requires 0 <= i < |st.pendingFriendRequests|
          => RequestNotification(st.pendingFriendRequests[i]))
    + seq(|st.gameInvites|, i requires 0 <= i < |st.gameInvites| => InviteNotification(st.gameInvites[i]))
  }

  /** Requests come first, each tagged as a request; invites follow, each tagged as an invite. */
  lemma AllNotificationsLayout(st: FriendsState)
    ensures forall i :: 0 <= i < |st.pendingFriendRequests| ==>
              AllNotifications(st)[i].Type() == PendingFriendRequestType
              && AllNotifications(st)[i].request == st.pendingFriendRequests[i]
    ensures forall i :: 0 <= i < |st.gameInvites| ==>
              AllNotifications(st)[|st.pendingFriendRequests| + i].Type() == GameInviteType
              && AllNotifications(st)[|st.pendingFriendRequests| + i].invite == st.gameInvites[i]
  {
    var a := TagRequests(st.pendingFriendRequests);
    var b := TagInvites(st.gameInvites);
    assert AllNotifications(st) == a + b;
    forall i | 0 <= i < |st.gameInvites|
      ensures AllNotifications(st)[|st.pendingFriendRequests| + i] == InviteNotification(st.gameInvites[i])
    {
      assert (a + b)[|a| + i] == b[i];
    }
  }

  /** The requests of a notification list, in order. */
  function Requests(ns: seq<Notification>): seq<PendingFriendRequest>
    decreases |ns|
  {
    if ns == [] then [] else RequestOf(ns[0]) + Requests(ns[1..])
  }

  function RequestOf(n: Notification): seq<PendingFriendRequest>
  {
    if n.RequestNotification? then [n.request] else []
  }

  function InviteOf(n: Notification): seq<Invite>
  {
    if n.InviteNotification? then [n.invite] else []
  }

  /** The invites of a notification list, in order. */
  function Invites(ns: seq<Notification>): seq<Invite>
    decreases |ns|
  {
    if ns == [] then [] else InviteOf(ns[0]) + Invites(ns[1..])
  }

  lemma {:induction false} RequestsAppend(a: seq<Notification>, b: seq<Notification>)
    ensures Requests(a + b) == Requests(a) + Requests(b)
    decreases |a|
  {
    if a == [] {
      assert a + b == b;
    } else {
      assert (a + b)[0] == a[0];
      assert (a + b)[1..] == a[1..] + b;
      RequestsAppend(a[1..], b);
      calc {
        Requests(a + b);
        RequestOf(a[0]) + Requests(a[1..] + b);
        RequestOf(a[0]) + (Requests(a[1..]) + Requests(b));
        (RequestOf(a[0]) + Requests(a[1..])) + Requests(b);
        Requests(a) + Requests(b);
      }
    }
  }

  lemma {:induction false} InvitesAppend(a: seq<Notification>, b: seq<Notification>)
    ensures Invites(a + b) == Invites(a) + Invites(b)
    decreases |a|
  {
    if a == [] {
      assert a + b == b;
    } else {
      assert (a + b)[0] == a[0];
      assert (a + b)[1..] == a[1..] + b;
      InvitesAppend(a[1..], b);
      calc {
        Invites(a + b);
        InviteOf(a[0]) + Invites(a[1..] + b);
        InviteOf(a[0]) + (Invites(a[1..]) + Invites(b));
        (InviteOf(a[0]) + Invites(a[1..])) + Invites(b);
        Invites(a) + Invites(b);
      }
    }
  }

  function TagRequests(rs: seq<PendingFriendRequest>): seq<Notification>
  {
    seq(|rs|, i requires 0 <= i < |rs| => RequestNotification(rs[i]))
  }

  function TagInvites(vs: seq<Invite>): seq<Notification>
  {
    seq(|vs|, i requires 0 <= i < |vs| => InviteNotification(vs[i]))
  }

  lemma {:induction false} UntagRequests(rs: seq<PendingFriendRequest>)
    ensures Requests(TagRequests(rs)) == rs && Invites(TagRequests(rs)) == []
    decreases |rs|
  {
    if rs != [] {
      assert TagRequests(rs)[1..] == TagRequests(rs[1..]);
      UntagRequests(rs[1..]);
    }
  }

  lemma {:induction false} UntagInvites(vs: seq<Invite>)
    ensures Invites(TagInvites(vs)) == vs && Requests(TagInvites(vs)) == []
    decreases |vs|
  {
    if vs != [] {
      assert TagInvites(vs)[1..] == TagInvites(vs[1..]);
      UntagInvites(vs[1..]);
    }
  }

  /** Untagging the notification list gives back the requests and the invites, each in order. */
  lemma NotificationsRoundTrip(st: FriendsState)
    ensures Requests(AllNotifications(st)) == st.pendingFriendRequests
    ensures Invites(AllNotifications(st)) == st.gameInvites
  {
    var a := TagRequests(st.pendingFriendRequests);
    var b := TagInvites(st.gameInvites);
    assert AllNotifications(st) == a + b;
    RequestsAppend(a, b);
    InvitesAppend(a, b);
    UntagRequests(st.pendingFriendRequests);
    UntagInvites(st.gameInvites);
  }

  /** A new pending request adds exactly one request notification, after the existing requests. */
  lemma PendingRequestAddsNotification(st: FriendsState, data: EventData)
    requires FriendRequestPending(st, data).Ok?
    ensures var st' := FriendRequestPending(st, data).value;
            |AllNotifications(st')| == |AllNotifications(st)| + 1
            && AllNotifications(st')[|st.pendingFriendRequests|]
               == RequestNotification(PendingFriendRequest(data.requestId.value, data.imageUrl, data.username,
                                                           data.firstName))
  {
  }
}
