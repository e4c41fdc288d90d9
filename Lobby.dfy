/**
 * The game lobby: the list of players with their ready flags, the events
 * the presence channel delivers (a peer toggled ready, a peer switched
 * the proving option, the host started the game), the player this client
 * adds on first mount, and the rules that enable the Start and Launch
 * buttons.
 *
 * The lobby store's `updatePlayer` is assumed to replace by username
 * and to append when no player has that username. The Pusher subscription, Clerk and rendering are left
 * out; the signed-in user and the channel's presence are parameters.
 */
module Lobby {
  import opened Results

  datatype Player = Player(host: bool, ready: bool, inGame: bool, username: string, id: string, imageUrl: string)

  /** The signed-in user as the mount effect sees it; the image URL is already URI-encoded. */
  datatype User = User(username: string, id: string, encodedImageUrl: string)

  datatype LobbyError = PlayerNotFound | OpponentNotFound

  /** A message this client triggers on the presence channel. */
  datatype ChannelEvent = ReadyToggle(ready: bool, username: string) | GameStarted(starting: bool)

  function Message(e: LobbyError): (m: string)
    ensures e.PlayerNotFound? ==> m == "LobbyZ: Could not find player"
    ensures e.OpponentNotFound? ==> m == "LobbyZ client-ready: Could not find opponent"
  {
    match e
    case PlayerNotFound => "LobbyZ: Could not find player"
    case OpponentNotFound => "LobbyZ client-ready: Could not find opponent"
  }

  const ChannelPrefix: string := "presence-lobby-"

  /** The presence channel of a lobby. */
  function ChannelName(lobbyId: string): (name: string)
    ensures |name| == |ChannelPrefix| + |lobbyId|
    ensures name[..|ChannelPrefix|] == ChannelPrefix && name[|ChannelPrefix|..] == lobbyId
  {
    ChannelPrefix + lobbyId
  }

  /** Distinct lobbies have distinct channels: the lobby id is recovered from the name. */
  lemma ChannelNameInjective(a: string, b: string)
    requires ChannelName(a) == ChannelName(b)
    ensures a == b
  {
    assert a == ChannelName(a)[|ChannelPrefix|..];
  }

  /** `players.find(p => p.username === username)`, as the index of the first match. */
  function FindIndex(players: seq<Player>, username: string): (r: Option<nat>)
    ensures r.None? <==> forall i :: 0 <= i < |players| ==> players[i].username != username
    ensures r.Some? ==>
              && r.value < |players| && players[r.value].username == username
              && forall j :: 0 <= j < r.value ==> players[j].username != username
  {
    if |players| == 0 then None
    else if players[0].username == username then Some(0)
    else
      match FindIndex(players[1..], username)
      case None => None
      case Some(k) => Some(k + 1)
  }

  /** Every player named like `p` replaced by `p`. */
  function Replace(players: seq<Player>, p: Player): (r: seq<Player>)
    ensures |r| == |players|
    ensures forall i :: 0 <= i < |r| ==> r[i] == (if players[i].username == p.username then p else players[i])
  {
    seq(|players|, i requires 0 <= i < |players| => if players[i].username == p.username then p else players[i])
  }

  /** The store's `updatePlayer`: replace the entries with `p`'s username, or append `p` when there is none. */
  function UpdatePlayer(players: seq<Player>, p: Player): (r: seq<Player>)
    ensures FindIndex(players, p.username).Some? ==> r == Replace(players, p)
    ensures FindIndex(players, p.username).None? ==> r == players + [p]
  {
    if FindIndex(players, p.username).Some? then Replace(players, p) else players + [p]
  }

  /** After an update `p` is the player found under its username, no other player changed, and none was lost. */
  lemma UpdatePlayerProperties(players: seq<Player>, p: Player)
    ensures |players| <= |UpdatePlayer(players, p)| <= |players| + 1
    ensures FindIndex(UpdatePlayer(players, p), p.username).Some?
    ensures UpdatePlayer(players, p)[FindIndex(UpdatePlayer(players, p), p.username).value] == p
    ensures forall q :: q in players && q.username != p.username ==> q in UpdatePlayer(players, p)
    ensures forall q :: q in UpdatePlayer(players, p) ==> q == p || (q in players && q.username != p.username)
  {
    var r := UpdatePlayer(players, p);
    var k := FindIndex(r, p.username);
    assert k.Some? by {
      var i := FindIndex(players, p.username);
      if i.Some? {
        assert r[i.value].username == p.username;
      } else {
        assert r[|players|].username == p.username;
      }
    }
    forall q | q in players && q.username != p.username
      ensures q in r
    {
      var i :| 0 <= i < |players| && players[i] == q;
      assert r[i] == q;
    }
  }

  /** `{...player, ready: !player.ready}`. */
  function Toggled(p: Player): (t: Player)
    ensures t.ready == !p.ready
    ensures t.(ready := p.ready) == p
  {
    p.(ready := !p.ready)
  }

  /** No two players share a username. */
  ghost predicate UniqueUsernames(players: seq<Player>)
  {
    forall i, j :: 0 <= i < j < |players| ==> players[i].username != players[j].username
  }

  /** `handleReady(username)`: flip the ready flag of the named player, or fail when there is none. */
  function ToggleReady(players: seq<Player>, username: string): (r: Result<seq<Player>, LobbyError>)
    ensures r.Err? <==> forall i :: 0 <= i < |players| ==> players[i].username != username
    ensures r.Err? ==> r.error == PlayerNotFound
  {
    match FindIndex(players, username)
    case None => Err(PlayerNotFound)
    case Some(i) => Ok(UpdatePlayer(players, Toggled(players[i])))
  }

  /**
   * With unique usernames, handling ready flips exactly the `ready` field
   * of the named player and leaves every other player as it was.
   */
  lemma ToggleReadyFlipsOnlyReady(players: seq<Player>, username: string, i: nat)
    requires UniqueUsernames(players)
    requires i < |players| && players[i].username == username
    ensures ToggleReady(players, username) == Ok(players[i := Toggled(players[i])])
  {
    var k := FindIndex(players, username);
    assert k == Some(i);
    var r := ToggleReady(players, username).value;
    assert r == Replace(players, Toggled(players[i]));
    assert forall j :: 0 <= j < |players| && j != i ==> players[j].username != username;
    assert r == players[i := Toggled(players[i])];
  }

  /** Readying twice undoes itself. */
  lemma ToggleReadyTwice(players: seq<Player>, username: string)
    requires UniqueUsernames(players)
    requires ToggleReady(players, username).Ok?
    ensures ToggleReady(ToggleReady(players, username).value, username) == Ok(players)
  {
    var i := FindIndex(players, username).value;
    ToggleReadyFlipsOnlyReady(players, username, i);
    var once := players[i := Toggled(players[i])];
    assert UniqueUsernames(once) by {
      assert forall j :: 0 <= j < |once| ==> once[j].username == players[j].username;
    }
    ToggleReadyFlipsOnlyReady(once, username, i);
    assert once[i := Toggled(once[i])] == players;
  }

  /** "client-ready-toggle": set the named opponent's ready flag to the received value, or fail. */
  function SetOpponentReady(players: seq<Player>, ready: bool, username: string): (r: Result<seq<Player>, LobbyError>)
    ensures r.Err? <==> forall i :: 0 <= i < |players| ==> players[i].username != username
    ensures r.Err? ==> r.error == OpponentNotFound
  {
    match FindIndex(players, username)
    case None => Err(OpponentNotFound)
    case Some(i) => Ok(UpdatePlayer(players, players[i].(ready := ready)))
  }

  /**
   * A peer that receives the toggle this client triggered (the new flag
   * and the username) ends with the same players as this client.
   */
  lemma PeerAgreesAfterToggle(players: seq<Player>, username: string, i: nat)
    requires i < |players| && players[i].username == username
    requires FindIndex(players, username) == Some(i)
    ensures SetOpponentReady(players, !players[i].ready, username) == ToggleReady(players, username)
  {
  }

  /** The Start Game button's `disabled`: someone is not ready, this user is not the host, or a start is under way. */
  predicate StartDisabled(players: seq<Player>, hostUsername: string, me: Option<string>, starting: bool)
  {
    (exists i :: 0 <= i < |players| && !players[i].ready) || me != Some(hostUsername) || starting
  }

  /** The Launch XR button's `disabled`. */
  predicate LaunchDisabled(launchXR: bool, xrLoaded: bool, xrSupported: bool)
  {
    launchXR || !xrLoaded || !xrSupported
  }

  /** The player the mount effect adds for `user`. */
  function InitialPlayer(user: User, hostUsername: string): (p: Player)
    ensures p.host <==> user.username == hostUsername
    ensures !p.ready && !p.inGame
    ensures p.username == user.username && p.id == user.id
    ensures p.imageUrl == "/api/imageProxy?url=" + user.encodedImageUrl
  {
    Player(user.username == hostUsername, false, false, user.username, user.id, "/api/imageProxy?url=" + user.encodedImageUrl)
  }

  /** One client's lobby: the store's players and flags and the component's own state. */
  class LobbyView {
    const hostUsername: string
    const lobbyId: string
    var players: seq<Player>
    var isMinaOn: bool
    var starting: bool
    var toXR: bool
    var launchXR: bool
    var mounted: bool
    /** The messages this client triggered on the presence channel, in order. */
    var sent: seq<ChannelEvent>

    constructor(host: string, id: string, storePlayers: seq<Player>, minaOn: bool, storeStarting: bool)
      ensures hostUsername == host && lobbyId == id
      ensures players == storePlayers && isMinaOn == minaOn && starting == storeStarting
      ensures !toXR && !launchXR && !mounted && sent == []
    {
      hostUsername := host;
      lobbyId := id;
      players := storePlayers;
      isMinaOn := minaOn;
      starting := storeStarting;
      toXR := false;
      launchXR := false;
      mounted := false;
      sent := [];
    }

    /**
     * The mount effect: with a signed-in user and not yet mounted, add the
     * user as the only player when the list is empty, then mark mounted.
     */
    method Mount(user: Option<User>)
      modifies this
      ensures if !old(mounted) && user.Some? then
                && mounted
                && players == (if old(players) == [] then [InitialPlayer(user.value, hostUsername)] else old(players))
              else
                mounted == old(mounted) && players == old(players)
      ensures !old(mounted) && user.Some? && old(players) == [] ==>
                players[0].host == (user.value.username == hostUsername)
                && ToggleReady(players, user.value.username).Ok?
      ensures isMinaOn == old(isMinaOn) && starting == old(starting) && toXR == old(toXR)
      ensures launchXR == old(launchXR) && sent == old(sent)
    {
      if mounted || user.None? {
        return;
      }
      if |players| == 0 {
        players := UpdatePlayer(players, InitialPlayer(user.value, hostUsername));
      }
      mounted := true;
    }

    /** `handleReady`: flip the named player's flag and tell the peers, or fail without a change. */
    method HandleReady(username: string, channelPresent: bool) returns (r: Outcome<LobbyError>)
      modifies this
      ensures match ToggleReady(old(players), username)
              case Err(e) => r == Fail(e) && players == old(players) && sent == old(sent)
              case Ok(updated) =>
                && r == Pass && players == updated
                && sent == old(sent) + (if channelPresent then [ReadyToggle(!old(players)[FindIndex(old(players), username).value].ready, username)] else [])
      ensures isMinaOn == old(isMinaOn) && starting == old(starting) && toXR == old(toXR)
      ensures launchXR == old(launchXR) && mounted == old(mounted)
    {
      var i := FindIndex(players, username);
      if i.None? {
        return Fail(PlayerNotFound);
      }
      var player := players[i.value];
      UpdatePlayerProperties(players, Toggled(player));
      players := UpdatePlayer(players, Toggled(player));
      if channelPresent {
        sent := sent + [ReadyToggle(!player.ready, player.username)];
      }
      r := Pass;
    }

    /** "client-ready-toggle" from a peer. */
    method OnReadyToggle(ready: bool, username: string) returns (r: Outcome<LobbyError>)
      modifies this
      ensures match SetOpponentReady(old(players), ready, username)
              case Err(e) => r == Fail(e) && players == old(players)
              case Ok(updated) => r == Pass && players == updated
      ensures isMinaOn == old(isMinaOn) && starting == old(starting) && toXR == old(toXR)
      ensures launchXR == old(launchXR) && mounted == old(mounted) && sent == old(sent)
    {
      var i := FindIndex(players, username);
      if i.None? {
        return Fail(OpponentNotFound);
      }
      UpdatePlayerProperties(players, players[i.value].(ready := ready));
      players := UpdatePlayer(players, players[i.value].(ready := ready));
      r := Pass;
    }

    /** "client-mina-toggle" from a peer. */
    method OnMinaToggle(minaToggle: bool)
      modifies this
      ensures isMinaOn == minaToggle
      ensures players == old(players) && starting == old(starting) && toXR == old(toXR)
      ensures launchXR == old(launchXR) && mounted == old(mounted) && sent == old(sent)
    {
      isMinaOn := minaToggle;
    }

    /** "client-game-started" from the host: every client starts and moves to the XR scene. */
    method OnGameStarted()
      modifies this
      ensures starting && toXR
      ensures players == old(players) && isMinaOn == old(isMinaOn)
      ensures launchXR == old(launchXR) && mounted == old(mounted) && sent == old(sent)
    {
      starting := true;
      toXR := true;
    }

    /** A click on Start Game: only the host starts, telling the peers first. */
    method ClickStart(me: Option<string>, channelPresent: bool)
      modifies this
      ensures if me == Some(hostUsername) then
                && starting && toXR
                && sent == old(sent) + (if channelPresent then [GameStarted(true)] else [])
              else
                starting == old(starting) && toXR == old(toXR) && sent == old(sent)
      ensures players == old(players) && isMinaOn == old(isMinaOn)
      ensures launchXR == old(launchXR) && mounted == old(mounted)
    {
      if me == Some(hostUsername) {
        if channelPresent {
          sent := sent + [GameStarted(true)];
        }
        starting := true;
        toXR := true;
      }
    }

    /** A press on Launch XR. */
    method PressLaunch()
      modifies this
      ensures launchXR
      ensures players == old(players) && isMinaOn == old(isMinaOn) && starting == old(starting)
      ensures toXR == old(toXR) && mounted == old(mounted) && sent == old(sent)
    {
      launchXR := true;
    }

    /**
     * A press on Start Game as the page renders it: the button is shown
     * only before a start, and while `StartDisabled` holds it delivers no
     * click. After a press Start is disabled, so a second press does nothing.
     */
    method PressStart(me: Option<string>, channelPresent: bool)
      modifies this
      ensures if !StartDisabled(old(players), hostUsername, me, old(starting)) then
                && starting && toXR
                && sent == old(sent) + (if channelPresent then [GameStarted(true)] else [])
              else
                starting == old(starting) && toXR == old(toXR) && sent == old(sent)
      ensures StartDisabled(players, hostUsername, me, starting)
      ensures players == old(players) && isMinaOn == old(isMinaOn)
      ensures launchXR == old(launchXR) && mounted == old(mounted)
    {
      if !StartDisabled(players, hostUsername, me, starting) {
        ClickStart(me, channelPresent);
      }
    }

    /**
     * A press on Launch XR as the page renders it: the button is shown only
     * once a start is under way, and while `LaunchDisabled` holds it
     * delivers no press. Afterwards it is disabled whenever it is shown.
     */
    method PressLaunchButton(xrLoaded: bool, xrSupported: bool)
      modifies this
      ensures launchXR == (old(launchXR) || (starting && !LaunchDisabled(old(launchXR), xrLoaded, xrSupported)))
      ensures starting ==> LaunchDisabled(launchXR, xrLoaded, xrSupported)
      ensures players == old(players) && isMinaOn == old(isMinaOn) && starting == old(starting)
      ensures toXR == old(toXR) && mounted == old(mounted) && sent == old(sent)
    {
      if starting && !LaunchDisabled(launchXR, xrLoaded, xrSupported) {
        PressLaunch();
      }
    }
  }
}
